/**
  The in-flight bookkeeping of the Kafka transport: the `_pending` and `_settled` lists,
  one of each per queue, kept beside a broker that commits a cumulative position per
  partition. Each method is proved to move the partition it touches exactly as
  OffsetBook.dfy says and to leave every other partition alone.

  The record handed out by the client is a `Handle`; `id` stands for object identity, so
  two polls of the same offset give two different handles.
*/
module KafkaTransport {
  import opened Helpers
  import opened OffsetBook

  datatype Partition = Partition(topic: string, number: nat)

  datatype Handle = Handle(partition: Partition, offset: nat, id: nat)

  // What one `poll` of the client does: nothing arrives, or the next record of a partition
  // arrives and a delivery can or cannot be built from it.
  datatype Arrival = Nothing | Record(number: nat, builds: bool)

  datatype Polled = NoMessage | Delivery(handle: Handle) | Undecodable

  // The broker's side of one partition, with the history the claims are about.
  datatype BrokerPartition = BrokerPartition(
    log: set<nat>, end: nat, position: nat, committed: nat, acked: set<nat>, skipped: set<nat>)

  type Lists = map<string, seq<Handle>>

  // A list stored under its queue, or the queue dropped when the list is empty.
  function Store(book: Lists, queue: string, list: seq<Handle>): Lists {
    if list == [] then book - {queue} else book[queue := list]
  }

  ghost function Offsets(list: seq<Handle>, p: Partition): set<nat> {
    set h | h in list && h.partition == p :: h.offset
  }

  // Handles of one list at the same place are the same object.
  ghost predicate OnePerOffset(list: seq<Handle>) {
    forall h, k :: h in list && k in list && h.partition == k.partition && h.offset == k.offset ==> h == k
  }

  // ---- The state as one value ----------------------------------------------------

  datatype State = State(pending: Lists, settled: Lists, broker: map<Partition, BrokerPartition>, nextId: nat)

  ghost function BookOf(b: BrokerPartition, pending: seq<Handle>, settled: seq<Handle>, p: Partition): Book {
    Book(b.log, b.end, b.position, b.committed, Offsets(pending, p), Offsets(settled, p), b.acked, b.skipped)
  }

  ghost function View(s: State, p: Partition): Book
    requires p in s.broker
  {
    BookOf(s.broker[p], ListOf(s.pending, p.topic), ListOf(s.settled, p.topic), p)
  }

  ghost predicate ListValid(s: State, queue: string, list: seq<Handle>) {
    && OnePerOffset(list)
    && forall h :: h in list ==> h.partition.topic == queue && h.partition in s.broker && h.id < s.nextId
  }

  ghost predicate Valid(s: State) {
    && (forall q :: q in s.pending ==> s.pending[q] != [] && ListValid(s, q, s.pending[q]))
    && (forall q :: q in s.settled ==> s.settled[q] != [] && ListValid(s, q, s.settled[q]))
    && forall p :: p in s.broker ==> Inv(View(s, p))
  }

  ghost predicate InFlight(s: State, h: Handle) {
    h in ListOf(s.pending, h.partition.topic)
  }

  // Only partitions of `queue` may look different afterwards.
  ghost predicate OtherQueuesUnchanged(s: State, t: State, queue: string) {
    && t.broker.Keys == s.broker.Keys
    && (forall q :: q != queue ==>
        ListOf(t.pending, q) == ListOf(s.pending, q) && ListOf(t.settled, q) == ListOf(s.settled, q))
    && (forall p :: p in s.broker && p.topic != queue ==> t.broker[p] == s.broker[p])
  }

  // `t` is `s` with new lists for one queue and a new broker entry for one of its partitions.
  ghost function Replace(s: State, queue: string, pending: seq<Handle>, settled: seq<Handle>,
                         p: Partition, b: BrokerPartition): State {
    s.(pending := Store(s.pending, queue, pending), settled := Store(s.settled, queue, settled),
       broker := s.broker[p := b])
  }

  lemma ReplaceLists(s: State, queue: string, pending: seq<Handle>, settled: seq<Handle>, p: Partition,
                     b: BrokerPartition)
    ensures var t := Replace(s, queue, pending, settled, p, b);
      && ListOf(t.pending, queue) == pending && ListOf(t.settled, queue) == settled
      && forall q :: q != queue ==>
          ListOf(t.pending, q) == ListOf(s.pending, q) && ListOf(t.settled, q) == ListOf(s.settled, q)
  {
  }

  lemma ReplaceViews(s: State, queue: string, pending: seq<Handle>, settled: seq<Handle>, p: Partition,
                     b: BrokerPartition, o: Partition)
    requires p in s.broker && p.topic == queue && o in s.broker
    requires o != p ==> Offsets(pending, o) == Offsets(ListOf(s.pending, queue), o)
    requires o != p ==> Offsets(settled, o) == Offsets(ListOf(s.settled, queue), o)
    ensures View(Replace(s, queue, pending, settled, p, b), o) ==
      if o == p then BookOf(b, pending, settled, p) else View(s, o)
  {
    ReplaceLists(s, queue, pending, settled, p, b);
  }

  lemma ReplaceKeeps(s: State, queue: string, pending: seq<Handle>, settled: seq<Handle>, p: Partition,
                     b: BrokerPartition)
    requires Valid(s) && p in s.broker && p.topic == queue
    requires ListValid(s, queue, pending) && ListValid(s, queue, settled)
    requires Inv(BookOf(b, pending, settled, p))
    requires forall o :: o != p ==> Offsets(pending, o) == Offsets(ListOf(s.pending, queue), o)
    requires forall o :: o != p ==> Offsets(settled, o) == Offsets(ListOf(s.settled, queue), o)
    ensures var t := Replace(s, queue, pending, settled, p, b);
      && Valid(t) && OtherQueuesUnchanged(s, t, queue)
      && View(t, p) == BookOf(b, pending, settled, p)
      && forall o :: o in s.broker && o != p ==> View(t, o) == View(s, o)
  {
    var t := Replace(s, queue, pending, settled, p, b);
    ReplaceLists(s, queue, pending, settled, p, b);
    forall o | o in s.broker
      ensures View(t, o) == if o == p then BookOf(b, pending, settled, p) else View(s, o)
    {
      ReplaceViews(s, queue, pending, settled, p, b, o);
    }
    assert t.broker.Keys == s.broker.Keys;
    ListsStayValid(s, t, queue);
  }

  lemma ListsStayValid(s: State, t: State, queue: string)
    requires Valid(s) && t.broker.Keys == s.broker.Keys && s.nextId <= t.nextId
    requires ListValid(t, queue, ListOf(t.pending, queue)) && ListValid(t, queue, ListOf(t.settled, queue))
    requires forall q :: q in t.pending ==>
      t.pending[q] != [] && (q != queue ==> q in s.pending && t.pending[q] == s.pending[q])
    requires forall q :: q in t.settled ==>
      t.settled[q] != [] && (q != queue ==> q in s.settled && t.settled[q] == s.settled[q])
    ensures forall q :: q in t.pending ==> t.pending[q] != [] && ListValid(t, q, t.pending[q])
    ensures forall q :: q in t.settled ==> t.settled[q] != [] && ListValid(t, q, t.settled[q])
  {
    forall q | q in t.pending ensures ListValid(t, q, t.pending[q]) {
      if q != queue { assert ListValid(s, q, s.pending[q]); }
    }
    forall q | q in t.settled ensures ListValid(t, q, t.settled[q]) {
      if q != queue { assert ListValid(s, q, s.settled[q]); }
    }
  }

  ghost function AckedView(s: State, p: Partition, h: Handle, commitOk: bool): Book
    requires p in s.broker
  {
    if p != h.partition then View(s, p)
    else if InFlight(s, h) then AckIn(View(s, p), h.offset, commitOk)
    else StaleAckIn(View(s, p), h.offset, commitOk)
  }

  // ---- Polling and seeking back ----------------------------------------------------

  // The state after the record of `h` was polled.
  ghost function PolledState(s: State, h: Handle, builds: bool): State
    requires h.partition in s.broker
  {
    var q, p := h.partition.topic, h.partition;
    var b := s.broker[p].(position := h.offset + 1);
    s.(nextId := s.nextId + 1,
       pending := if builds then Store(s.pending, q, ListOf(s.pending, q) + [h]) else s.pending,
       broker := s.broker[p := if builds then b else b.(skipped := b.skipped + {h.offset})])
  }

  lemma PolledIsReplace(s: State, h: Handle, builds: bool)
    requires Valid(s) && h.partition in s.broker
    ensures var q, p := h.partition.topic, h.partition;
      var b := s.broker[p].(position := h.offset + 1);
      PolledState(s, h, builds) == Replace(s.(nextId := s.nextId + 1), q,
        if builds then ListOf(s.pending, q) + [h] else ListOf(s.pending, q), ListOf(s.settled, q), p,
        if builds then b else b.(skipped := b.skipped + {h.offset}))
  {
    RestoredLists(s, h.partition.topic);
  }

  // The lists and the broker entry after the record of `h` was polled.
  lemma PolledBook(s: State, h: Handle, builds: bool, list: seq<Handle>, c: BrokerPartition)
    requires Valid(s) && h.partition in s.broker && h.id == s.nextId
    requires NextOffsets(View(s, h.partition)) != {} && h.offset == Next(View(s, h.partition))
    requires var was, b := ListOf(s.pending, h.partition.topic), s.broker[h.partition].(position := h.offset + 1);
      && list == (if builds then was + [h] else was)
      && c == (if builds then b else b.(skipped := b.skipped + {h.offset}))
    ensures BookOf(c, list, ListOf(s.settled, h.partition.topic), h.partition) == PollFrom(View(s, h.partition), builds)
    ensures Inv(PollFrom(View(s, h.partition), builds))
    ensures ListValid(s.(nextId := s.nextId + 1), h.partition.topic, list)
    ensures forall o :: o != h.partition ==> Offsets(list, o) == Offsets(ListOf(s.pending, h.partition.topic), o)
  {
    ListedBooks(s, h.partition);
    PollKeeps(View(s, h.partition), builds);
    AppendedOffsets(s, h.partition.topic, ListOf(s.pending, h.partition.topic), h);
  }

  lemma PollRefines(s: State, h: Handle, builds: bool)
    requires Valid(s) && h.partition in s.broker && h.id == s.nextId
    requires NextOffsets(View(s, h.partition)) != {} && h.offset == Next(View(s, h.partition))
    ensures var t := PolledState(s, h, builds);
      && Valid(t) && OtherQueuesUnchanged(s, t, h.partition.topic)
      && forall o :: o in s.broker ==>
          View(t, o) == PolledView(s, o, h.partition.topic, Record(h.partition.number, builds))
  {
    var q, p := h.partition.topic, h.partition;
    var s1 := s.(nextId := s.nextId + 1);
    var b := s.broker[p].(position := h.offset + 1);
    var c := if builds then b else b.(skipped := b.skipped + {h.offset});
    var list := if builds then ListOf(s.pending, q) + [h] else ListOf(s.pending, q);
    PolledBook(s, h, builds, list, c);
    OneMoreId(s, s1);
    PolledIsReplace(s, h, builds);
    ListsAreValid(s1, q);
    ReplaceKeeps(s1, q, list, ListOf(s.settled, q), p, c);
  }

  lemma ListedBooks(s: State, p: Partition)
    requires Valid(s) && p in s.broker
    ensures Inv(View(s, p)) && forall o :: o in Offsets(ListOf(s.pending, p.topic), p) ==> o < s.broker[p].position
    ensures ListValid(s, p.topic, ListOf(s.pending, p.topic)) && ListValid(s, p.topic, ListOf(s.settled, p.topic))
  {
  }

  lemma OneMoreId(s: State, t: State)
    requires Valid(s) && t == s.(nextId := s.nextId + 1)
    ensures Valid(t)
  {
    forall p | p in t.broker ensures View(t, p) == View(s, p) { }
    forall q | q in t.pending ensures ListValid(t, q, t.pending[q]) { assert ListValid(s, q, s.pending[q]); }
    forall q | q in t.settled ensures ListValid(t, q, t.settled[q]) { assert ListValid(s, q, s.settled[q]); }
  }

  lemma AppendedOffsets(s: State, q: string, list: seq<Handle>, h: Handle)
    requires ListValid(s, q, list) && h.partition.topic == q && h.partition in s.broker && h.id == s.nextId
    requires forall o :: o in Offsets(list, h.partition) ==> o < h.offset
    ensures ListValid(s.(nextId := s.nextId + 1), q, list + [h])
    ensures Offsets(list + [h], h.partition) == Offsets(list, h.partition) + {h.offset}
    ensures forall o :: o != h.partition ==> Offsets(list + [h], o) == Offsets(list, o)
  {
    assert forall k :: k in list && k.partition == h.partition ==> k.offset in Offsets(list, h.partition);
    assert forall k :: k in list + [h] <==> k in list || k == h;
  }

  ghost predicate IsKeptBefore(kept: seq<Handle>, list: seq<Handle>, p: Partition, offset: nat) {
    forall h :: h in kept <==> h in list && (h.partition != p || h.offset < offset)
  }

  lemma KeptOffsets(kept: seq<Handle>, list: seq<Handle>, p: Partition, offset: nat)
    requires IsKeptBefore(kept, list, p, offset)
    ensures Offsets(kept, p) == Below(Offsets(list, p), offset)
    ensures forall o :: o != p ==> Offsets(kept, o) == Offsets(list, o)
    ensures OnePerOffset(list) ==> OnePerOffset(kept)
  {
  }

  // Seeking `p` to `position` and forgetting its records from `offset` on.
  lemma ForgetRefines(s: State, p: Partition, offset: nat, position: nat, keptPending: seq<Handle>,
                      keptSettled: seq<Handle>)
    requires Valid(s) && p in s.broker
    requires IsKeptBefore(keptPending, ListOf(s.pending, p.topic), p, offset)
    requires IsKeptBefore(keptSettled, ListOf(s.settled, p.topic), p, offset)
    requires Inv(RewindTo(View(s, p), offset).(position := position))
    ensures var t := Replace(s, p.topic, keptPending, keptSettled, p, s.broker[p].(position := position));
      && Valid(t) && OtherQueuesUnchanged(s, t, p.topic)
      && View(t, p) == RewindTo(View(s, p), offset).(position := position)
      && forall o :: o in s.broker && o != p ==> View(t, o) == View(s, o)
  {
    var q := p.topic;
    var b := s.broker[p].(position := position);
    assert ListValid(s, q, ListOf(s.pending, q)) && ListValid(s, q, ListOf(s.settled, q));
    KeptOffsets(keptPending, ListOf(s.pending, q), p, offset);
    KeptOffsets(keptSettled, ListOf(s.settled, q), p, offset);
    assert BookOf(b, keptPending, keptSettled, p) == RewindTo(View(s, p), offset).(position := position);
    ReplaceKeeps(s, q, keptPending, keptSettled, p, b);
  }

  // The same without asking what it leads to.
  lemma ForgetMoves(s: State, p: Partition, offset: nat, position: nat, keptPending: seq<Handle>,
                    keptSettled: seq<Handle>)
    requires p in s.broker
    requires IsKeptBefore(keptPending, ListOf(s.pending, p.topic), p, offset)
    requires IsKeptBefore(keptSettled, ListOf(s.settled, p.topic), p, offset)
    ensures var t := Replace(s, p.topic, keptPending, keptSettled, p, s.broker[p].(position := position));
      && OtherQueuesUnchanged(s, t, p.topic)
      && View(t, p) == RewindTo(View(s, p), offset).(position := position)
      && forall o :: o in s.broker && o != p ==> View(t, o) == View(s, o)
  {
    var q := p.topic;
    var b := s.broker[p].(position := position);
    KeptOffsets(keptPending, ListOf(s.pending, q), p, offset);
    KeptOffsets(keptSettled, ListOf(s.settled, q), p, offset);
    ReplaceLists(s, q, keptPending, keptSettled, p, b);
    forall o | o in s.broker
      ensures View(Replace(s, q, keptPending, keptSettled, p, b), o) ==
        if o == p then BookOf(b, keptPending, keptSettled, p) else View(s, o)
    {
      ReplaceViews(s, q, keptPending, keptSettled, p, b, o);
    }
  }

  ghost function RewoundView(s: State, p: Partition, h: Handle): Book
    requires p in s.broker
  {
    if p == h.partition then RewindTo(View(s, p), h.offset) else View(s, p)
  }

  ghost function TakenBack(s: State, p: Partition, queue: string, seekOk: Partition -> bool): Book
    requires p in s.broker
  {
    if p.topic == queue then AbandonIn(View(s, p), seekOk(p)) else View(s, p)
  }

  lemma NothingToTakeBack(s: State, queue: string, seekOk: Partition -> bool)
    requires ListOf(s.pending, queue) == []
    ensures forall p :: p in s.broker ==> TakenBack(s, p, queue, seekOk) == View(s, p)
  {
    assert forall p :: Offsets([], p) == {};
  }

  lemma ListedIsInFlight(s: State, queue: string, h: Handle)
    requires Valid(s) && h in ListOf(s.pending, queue)
    ensures h.partition.topic == queue && h.partition in s.broker
    ensures h.offset in View(s, h.partition).inFlight && Inv(View(s, h.partition))
  {
    assert ListValid(s, queue, ListOf(s.pending, queue));
  }

  lemma AllTakenBack(s: State, t: State, queue: string, seekOk: Partition -> bool)
    requires Valid(t) && TakingBack(s, t, queue, seekOk, {})
    ensures queue !in t.pending && t.pending - {queue} == t.pending
  {
    assert forall p :: p in t.broker && p.topic == queue ==> View(t, p).inFlight == {};
    if queue in t.pending {
      ListedIsInFlight(t, queue, t.pending[queue][0]);
    }
  }

  ghost predicate IsLowest(s: State, queue: string, lowest: map<Partition, Handle>) {
    && (forall p :: p in lowest ==> p in s.broker && p.topic == queue && lowest[p].partition == p
                                    && View(s, p).inFlight != {} && lowest[p].offset == Low(View(s, p)))
    && (forall p :: p in s.broker && p.topic == queue && p !in lowest ==> View(s, p).inFlight == {})
  }

  lemma LowestIsLow(s: State, queue: string, lowest: map<Partition, Handle>)
    requires Valid(s)
    requires var list := ListOf(s.pending, queue);
      && lowest.Keys == (set h | h in list :: h.partition)
      && (forall p :: p in lowest ==> lowest[p] in list && lowest[p].partition == p)
      && (forall h :: h in list ==> lowest[h.partition].offset <= h.offset)
    ensures IsLowest(s, queue, lowest)
  {
    var list := ListOf(s.pending, queue);
    forall p | p in lowest
      ensures p in s.broker && p.topic == queue && View(s, p).inFlight != {} && lowest[p].offset == Low(View(s, p))
    {
      ListedIsInFlight(s, queue, lowest[p]);
    }
  }

  // Part way through `_rewind_abandoned`: the partitions in `todo` are still as they were.
  ghost predicate TakingBack(s: State, t: State, queue: string, seekOk: Partition -> bool, todo: set<Partition>) {
    && OtherQueuesUnchanged(s, t, queue) && t.nextId == s.nextId
    && forall p :: p in s.broker ==> View(t, p) == (if p in todo then View(s, p) else TakenBack(s, p, queue, seekOk))
  }

  lemma TakingBackStarts(s: State, queue: string, seekOk: Partition -> bool, lowest: map<Partition, Handle>)
    requires IsLowest(s, queue, lowest)
    ensures TakingBack(s, s, queue, seekOk, lowest.Keys)
  {
  }

  lemma TakingBackGoesOn(s: State, t: State, u: State, queue: string, seekOk: Partition -> bool,
                         todo: set<Partition>, p: Partition)
    requires TakingBack(s, t, queue, seekOk, todo) && p in todo && p in s.broker && p.topic == queue
    requires OtherQueuesUnchanged(t, u, queue) && u.nextId == t.nextId
    requires View(u, p) == AbandonIn(View(s, p), seekOk(p))
    requires forall o :: o in t.broker && o != p ==> View(u, o) == View(t, o)
    ensures TakingBack(s, u, queue, seekOk, todo - {p})
  {
  }

  ghost function PolledView(s: State, p: Partition, queue: string, arrival: Arrival): Book
    requires p in s.broker
  {
    if arrival.Record? && p == Partition(queue, arrival.number) then PollFrom(View(s, p), arrival.builds)
    else View(s, p)
  }

  // The poll is answered by a record of that partition of the queue.
  ghost predicate Answers(s: State, queue: string, arrival: Arrival) {
    && arrival.Record? && Partition(queue, arrival.number) in s.broker
    && NextOffsets(View(s, Partition(queue, arrival.number))) != {}
  }

  // What a poll hands out.
  ghost predicate PollsAs(s: State, queue: string, arrival: Arrival, polled: Polled) {
    match polled
    case NoMessage => !Answers(s, queue, arrival)
    case Undecodable => Answers(s, queue, arrival) && !arrival.builds
    case Delivery(h) =>
      && Answers(s, queue, arrival) && arrival.builds && h.partition == Partition(queue, arrival.number)
      && h.offset == Next(View(s, Partition(queue, arrival.number)))
  }

  // One poll of the queue, from `t` to `u`.
  ghost predicate OnePoll(t: State, u: State, queue: string, arrival: Arrival, polled: Polled) {
    && OtherQueuesUnchanged(t, u, queue) && PollsAs(t, queue, arrival, polled)
    && forall p :: p in t.broker ==> View(u, p) == PolledView(t, p, queue, arrival)
  }

  // A partition of the queue once its abandoned records are taken back and n polls are made.
  ghost function BookAt(s: State, p: Partition, seekOk: Partition -> bool, arrivals: seq<Arrival>, n: nat): Book
    requires p in s.broker && n <= |arrivals|
  {
    if n == 0 then AbandonIn(View(s, p), seekOk(p))
    else
      var b := BookAt(s, p, seekOk, arrivals, n - 1);
      var last := arrivals[n - 1];
      if last.Record? && last.number == p.number then PollFrom(b, last.builds) else b
  }

  // The i-th poll is answered by a record, from which a delivery is built or not.
  ghost predicate AnswersAt(s: State, queue: string, seekOk: Partition -> bool, arrivals: seq<Arrival>, i: nat)
    requires i < |arrivals|
  {
    && arrivals[i].Record? && Partition(queue, arrivals[i].number) in s.broker
    && NextOffsets(BookAt(s, Partition(queue, arrivals[i].number), seekOk, arrivals, i)) != {}
  }

  // It hands out the next record of the partition that answers.
  ghost predicate HandsOut(s: State, queue: string, seekOk: Partition -> bool, arrivals: seq<Arrival>, i: nat,
                           h: Handle)
    requires i < |arrivals|
  {
    && AnswersAt(s, queue, seekOk, arrivals, i) && arrivals[i].builds
    && h.partition == Partition(queue, arrivals[i].number)
    && h.offset == Next(BookAt(s, h.partition, seekOk, arrivals, i))
  }

  ghost predicate Yields(s: State, queue: string, seekOk: Partition -> bool, arrivals: seq<Arrival>, i: nat,
                         polled: Polled)
    requires i < |arrivals|
  {
    match polled
    case NoMessage => !AnswersAt(s, queue, seekOk, arrivals, i)
    case Undecodable => AnswersAt(s, queue, seekOk, arrivals, i) && !arrivals[i].builds
    case Delivery(h) => HandsOut(s, queue, seekOk, arrivals, i, h)
  }

  // Each of the first polls handed out its record.
  ghost predicate AllHandedOut(s: State, queue: string, seekOk: Partition -> bool, arrivals: seq<Arrival>,
                               batch: seq<Handle>) {
    |batch| <= |arrivals| && forall i :: 0 <= i < |batch| ==> HandsOut(s, queue, seekOk, arrivals, i, batch[i])
  }

  // The batch of so many polls: every poll but perhaps the last handed out its record, and the
  // polls end when the batch is full, when there are no more, or with one that hands out nothing.
  ghost predicate IsBatch(s: State, queue: string, max: nat, seekOk: Partition -> bool, arrivals: seq<Arrival>,
                          batch: seq<Handle>, polls: nat) {
    && |batch| <= polls <= |arrivals| && polls <= |batch| + 1 && (max != 0 ==> |batch| <= max)
    && AllHandedOut(s, queue, seekOk, arrivals, batch)
    && (if polls == |batch| then polls == |arrivals| || (max != 0 && |batch| == max)
        else !(AnswersAt(s, queue, seekOk, arrivals, polls - 1) && arrivals[polls - 1].builds))
  }

  // `t` is `s` after n polls of the queue.
  ghost predicate AfterPolls(s: State, t: State, queue: string, seekOk: Partition -> bool, arrivals: seq<Arrival>,
                             n: nat) {
    && n <= |arrivals| && OtherQueuesUnchanged(s, t, queue)
    && forall p :: p in s.broker && p.topic == queue ==> View(t, p) == BookAt(s, p, seekOk, arrivals, n)
  }

  // One more poll.
  lemma PollGoesOn(s: State, t: State, u: State, queue: string, seekOk: Partition -> bool, arrivals: seq<Arrival>,
                   n: nat, polled: Polled)
    requires n < |arrivals| && AfterPolls(s, t, queue, seekOk, arrivals, n)
    requires OnePoll(t, u, queue, arrivals[n], polled)
    ensures AfterPolls(s, u, queue, seekOk, arrivals, n + 1) && Yields(s, queue, seekOk, arrivals, n, polled)
  {
  }

  // Part way through `pop_batch`: each poll so far handed out its record.
  ghost predicate Collected(s: State, t: State, queue: string, max: nat, seekOk: Partition -> bool,
                            arrivals: seq<Arrival>, batch: seq<Handle>) {
    && AfterPolls(s, t, queue, seekOk, arrivals, |batch|) && (max != 0 ==> |batch| <= max)
    && AllHandedOut(s, queue, seekOk, arrivals, batch)
  }

  // The abandoned records are taken back and nothing is polled yet.
  lemma NothingPolled(s: State, t: State, queue: string, seekOk: Partition -> bool, arrivals: seq<Arrival>)
    requires TakingBack(s, t, queue, seekOk, {})
    ensures AfterPolls(s, t, queue, seekOk, arrivals, 0)
    ensures forall max: nat :: Collected(s, t, queue, max, seekOk, arrivals, [])
  {
  }

  // The polls are over.
  lemma NoMorePolls(s: State, t: State, queue: string, max: nat, seekOk: Partition -> bool, arrivals: seq<Arrival>,
                    batch: seq<Handle>)
    requires Collected(s, t, queue, max, seekOk, arrivals, batch)
    requires |batch| == |arrivals| || (max != 0 && |batch| == max)
    ensures IsBatch(s, queue, max, seekOk, arrivals, batch, |batch|)
    ensures AfterPolls(s, t, queue, seekOk, arrivals, |batch|)
  {
  }

  // How a poll leads on: a delivery joins the batch, anything else ends it.
  ghost predicate Leads(s: State, u: State, queue: string, max: nat, seekOk: Partition -> bool,
                        arrivals: seq<Arrival>, batch: seq<Handle>, polled: Polled)
    requires |batch| < |arrivals|
  {
    match polled
    case Delivery(h) => Collected(s, u, queue, max, seekOk, arrivals, batch + [h])
    case _ =>
      && AfterPolls(s, u, queue, seekOk, arrivals, |batch| + 1)
      && IsBatch(s, queue, max, seekOk, arrivals, batch, |batch| + 1)
      && (polled.Undecodable? <==> AnswersAt(s, queue, seekOk, arrivals, |batch|) && !arrivals[|batch|].builds)
  }

  lemma BatchGoesOn(s: State, t: State, u: State, queue: string, max: nat, seekOk: Partition -> bool,
                    arrivals: seq<Arrival>, batch: seq<Handle>, polled: Polled)
    requires |batch| < |arrivals| && (max != 0 ==> |batch| < max)
    requires Collected(s, t, queue, max, seekOk, arrivals, batch)
    requires OnePoll(t, u, queue, arrivals[|batch|], polled)
    ensures Leads(s, u, queue, max, seekOk, arrivals, batch, polled)
  {
    PollGoesOn(s, t, u, queue, seekOk, arrivals, |batch|, polled);
    if polled.Delivery? { OneMoreHandedOut(s, queue, seekOk, arrivals, batch, polled.handle); }
  }

  lemma OneMoreHandedOut(s: State, queue: string, seekOk: Partition -> bool, arrivals: seq<Arrival>,
                         batch: seq<Handle>, h: Handle)
    requires AllHandedOut(s, queue, seekOk, arrivals, batch) && |batch| < |arrivals|
    requires HandsOut(s, queue, seekOk, arrivals, |batch|, h)
    ensures AllHandedOut(s, queue, seekOk, arrivals, batch + [h])
  {
  }

  // Storing a queue's own list changes nothing.
  lemma RestoredLists(s: State, queue: string)
    requires Valid(s)
    ensures Store(s.pending, queue, ListOf(s.pending, queue)) == s.pending
    ensures Store(s.settled, queue, ListOf(s.settled, queue)) == s.settled
  {
  }

  lemma ListsAreValid(s: State, queue: string)
    requires Valid(s)
    ensures ListValid(s, queue, ListOf(s.pending, queue)) && ListValid(s, queue, ListOf(s.settled, queue))
  {
  }

  // The record the broker answers a poll with.
  method NextRecord(b: BrokerPartition, ghost book: Book) returns (next: Option<nat>)
    requires book.log == b.log && book.position == b.position
    ensures if NextOffsets(book) == {} then next == None else next == Some(Next(book))
  {
    var waiting := set o | o in b.log && b.position <= o;
    assert waiting == NextOffsets(book);
    if waiting == {} { return None; }
    var m := Least(waiting);
    next := Some(m);
  }

  method Least(s: set<nat>) returns (m: nat)
    requires s != {}
    ensures m in s && forall x :: x in s ==> m <= x
  {
    var rest := s;
    m :| m in rest;
    while rest != {}
      invariant rest <= s && m in s
      invariant forall x :: x in s && x !in rest ==> m <= x
    {
      var x :| x in rest;
      if x < m { m := x; }
      rest := rest - {x};
    }
  }

  // ---- What the lists of `ack` mean ----------------------------------------------

  lemma AckOffsets(pending: seq<Handle>, settled: seq<Handle>, h: Handle, inFlight: seq<Handle>,
                   floor: Option<nat>, committable: seq<Handle>, remaining: seq<Handle>)
    requires OnePerOffset(pending)
    requires forall k :: k in inFlight <==> k in pending && k != h
    requires IsFloor(floor, inFlight, h.partition)
    requires forall k :: k in committable <==> k in settled + [h] && Reachable(k, h.partition, floor)
    requires forall k :: k in remaining <==> k in settled + [h] && !Reachable(k, h.partition, floor)
    ensures Offsets(inFlight, h.partition)
         == if h in pending then Offsets(pending, h.partition) - {h.offset} else Offsets(pending, h.partition)
    ensures var ready := Committable(Offsets(settled, h.partition) + {h.offset}, Offsets(inFlight, h.partition));
      && Offsets(committable, h.partition) == ready
      && Offsets(remaining, h.partition) == Offsets(settled, h.partition) + {h.offset} - ready
      && (committable == [] <==> ready == {})
  {
    var p := h.partition;
    var waiting := settled + [h];
    assert Offsets(waiting, p) == Offsets(settled, p) + {h.offset} by {
      assert h in waiting;
      assert forall k :: k in settled ==> k in waiting;
    }
    var ready := Committable(Offsets(waiting, p), Offsets(inFlight, p));
    assert forall o :: o in ready <==> o in Offsets(waiting, p) && (floor == None || o < floor.value);
    assert Offsets(committable, p) == ready;
    if committable != [] {
      var k := committable[0];
      assert k in committable && Reachable(k, p, floor);
      assert k.offset in Offsets(committable, p);
    } else {
      assert Offsets(committable, p) == {};
    }
  }

  // `inFlight`, `committable` and `remaining` are what `ack` computes for `h` from the lists.
  ghost predicate AckComputes(pending: seq<Handle>, settled: seq<Handle>, h: Handle, inFlight: seq<Handle>,
                              committable: seq<Handle>, remaining: seq<Handle>) {
    exists floor :: IsFloor(floor, inFlight, h.partition)
      && (forall k :: k in inFlight <==> k in pending && k != h)
      && (forall k :: k in committable <==> k in settled + [h] && Reachable(k, h.partition, floor))
      && (forall k :: k in remaining <==> k in settled + [h] && !Reachable(k, h.partition, floor))
  }

  // The commit moved to just past the top committable record, or stayed.
  ghost predicate CommitMoved(was: BrokerPartition, now: BrokerPartition, committable: seq<Handle>, commitOk: bool) {
    if committable != [] && commitOk then IsTop(committable, now.committed - 1)
    else now.committed == was.committed
  }

  lemma AckBook(b: BrokerPartition, c: BrokerPartition, pending: seq<Handle>, settled: seq<Handle>, h: Handle,
                inFlight: seq<Handle>, committable: seq<Handle>, remaining: seq<Handle>, commitOk: bool)
    requires OnePerOffset(pending)
    requires AckComputes(pending, settled, h, inFlight, committable, remaining)
    requires c == b.(acked := b.acked + {h.offset}, committed := c.committed)
    requires CommitMoved(b, c, committable, commitOk)
    ensures var was := BookOf(b, pending, settled, h.partition);
      BookOf(c, inFlight, remaining, h.partition) ==
        if h in pending then AckIn(was, h.offset, commitOk) else StaleAckIn(was, h.offset, commitOk)
  {
    var floor :| IsFloor(floor, inFlight, h.partition)
      && (forall k :: k in inFlight <==> k in pending && k != h)
      && (forall k :: k in committable <==> k in settled + [h] && Reachable(k, h.partition, floor))
      && (forall k :: k in remaining <==> k in settled + [h] && !Reachable(k, h.partition, floor));
    AckOffsets(pending, settled, h, inFlight, floor, committable, remaining);
    if committable != [] && commitOk { TopIsMax(committable, h.partition, c.committed - 1); }
  }

  lemma AckLeavesOthers(pending: seq<Handle>, settled: seq<Handle>, h: Handle, inFlight: seq<Handle>,
                        committable: seq<Handle>, remaining: seq<Handle>)
    requires AckComputes(pending, settled, h, inFlight, committable, remaining)
    ensures h !in inFlight
    ensures forall o :: o != h.partition ==> Offsets(inFlight, o) == Offsets(pending, o)
    ensures forall o :: o != h.partition ==> Offsets(remaining, o) == Offsets(settled, o)
  {
    var floor :| IsFloor(floor, inFlight, h.partition)
      && (forall k :: k in inFlight <==> k in pending && k != h)
      && (forall k :: k in committable <==> k in settled + [h] && Reachable(k, h.partition, floor))
      && (forall k :: k in remaining <==> k in settled + [h] && !Reachable(k, h.partition, floor));
    forall o | o != h.partition ensures Offsets(remaining, o) == Offsets(settled, o) {
      assert forall k: Handle :: k.partition == o ==> (k in remaining <==> k in settled);
    }
    forall o | o != h.partition ensures Offsets(inFlight, o) == Offsets(pending, o) {
      assert forall k: Handle :: k.partition == o ==> (k in inFlight <==> k in pending);
    }
  }

  lemma AckListsValid(s: State, queue: string, h: Handle, inFlight: seq<Handle>, committable: seq<Handle>,
                      remaining: seq<Handle>)
    requires ListValid(s, queue, ListOf(s.pending, queue)) && ListValid(s, queue, ListOf(s.settled, queue))
    requires h in ListOf(s.pending, queue)
    requires Offsets(ListOf(s.pending, queue), h.partition) !! Offsets(ListOf(s.settled, queue), h.partition)
    requires AckComputes(ListOf(s.pending, queue), ListOf(s.settled, queue), h, inFlight, committable, remaining)
    ensures ListValid(s, queue, inFlight) && ListValid(s, queue, remaining) && h !in inFlight
    ensures forall o :: o != h.partition ==> Offsets(inFlight, o) == Offsets(ListOf(s.pending, queue), o)
    ensures forall o :: o != h.partition ==> Offsets(remaining, o) == Offsets(ListOf(s.settled, queue), o)
  {
    var pending, settled := ListOf(s.pending, queue), ListOf(s.settled, queue);
    var floor :| IsFloor(floor, inFlight, h.partition)
      && (forall k :: k in inFlight <==> k in pending && k != h)
      && (forall k :: k in committable <==> k in settled + [h] && Reachable(k, h.partition, floor))
      && (forall k :: k in remaining <==> k in settled + [h] && !Reachable(k, h.partition, floor));
    AckOthers(pending, settled, h, inFlight, floor, remaining);
  }

  // Put together: whatever handle it is, the partition moves as the account says and every other
  // one stays.
  lemma AckMoves(s: State, h: Handle, inFlight: seq<Handle>, committable: seq<Handle>, remaining: seq<Handle>,
                 c: BrokerPartition, commitOk: bool)
    requires Valid(s) && h.partition in s.broker
    requires AckComputes(ListOf(s.pending, h.partition.topic), ListOf(s.settled, h.partition.topic), h,
                         inFlight, committable, remaining)
    requires c == s.broker[h.partition].(acked := s.broker[h.partition].acked + {h.offset}, committed := c.committed)
    requires CommitMoved(s.broker[h.partition], c, committable, commitOk)
    ensures var t := Replace(s, h.partition.topic, inFlight, remaining, h.partition, c);
      && OtherQueuesUnchanged(s, t, h.partition.topic) && !InFlight(t, h)
      && forall p :: p in s.broker ==> View(t, p) == AckedView(s, p, h, commitOk)
  {
    var p := h.partition;
    var q := p.topic;
    ListsAreValid(s, q);
    AckLeavesOthers(ListOf(s.pending, q), ListOf(s.settled, q), h, inFlight, committable, remaining);
    AckBook(s.broker[p], c, ListOf(s.pending, q), ListOf(s.settled, q), h, inFlight, committable, remaining, commitOk);
    ReplaceLists(s, q, inFlight, remaining, p, c);
    forall o | o in s.broker
      ensures View(Replace(s, q, inFlight, remaining, p, c), o) == AckedView(s, o, h, commitOk)
    {
      ReplaceViews(s, q, inFlight, remaining, p, c, o);
    }
  }

  // When the handle was in flight the whole state stays in order.
  lemma AckRefines(s: State, h: Handle, inFlight: seq<Handle>, committable: seq<Handle>, remaining: seq<Handle>,
                   c: BrokerPartition, commitOk: bool)
    requires Valid(s) && InFlight(s, h) && h.partition in s.broker
    requires AckComputes(ListOf(s.pending, h.partition.topic), ListOf(s.settled, h.partition.topic), h,
                         inFlight, committable, remaining)
    requires c == s.broker[h.partition].(acked := s.broker[h.partition].acked + {h.offset}, committed := c.committed)
    requires CommitMoved(s.broker[h.partition], c, committable, commitOk)
    ensures Valid(Replace(s, h.partition.topic, inFlight, remaining, h.partition, c))
  {
    var p := h.partition;
    var q := p.topic;
    var book := View(s, p);
    assert Inv(book) && h.offset in book.inFlight;
    ListsAreValid(s, q);
    AckListsValid(s, q, h, inFlight, committable, remaining);
    AckBook(s.broker[p], c, ListOf(s.pending, q), ListOf(s.settled, q), h, inFlight, committable, remaining, commitOk);
    AckKeeps(book, h.offset, commitOk);
    ReplaceKeeps(s, q, inFlight, remaining, p, c);
  }

  lemma AckStep(s: State, h: Handle, inFlight: seq<Handle>, committable: seq<Handle>, remaining: seq<Handle>,
                c: BrokerPartition, commitOk: bool)
    requires Valid(s) && h.partition in s.broker
    requires AckComputes(ListOf(s.pending, h.partition.topic), ListOf(s.settled, h.partition.topic), h,
                         inFlight, committable, remaining)
    requires c == s.broker[h.partition].(acked := s.broker[h.partition].acked + {h.offset}, committed := c.committed)
    requires CommitMoved(s.broker[h.partition], c, committable, commitOk)
    ensures var t := Replace(s, h.partition.topic, inFlight, remaining, h.partition, c);
      && OtherQueuesUnchanged(s, t, h.partition.topic) && !InFlight(t, h) && (InFlight(s, h) ==> Valid(t))
      && forall p :: p in s.broker ==> View(t, p) == AckedView(s, p, h, commitOk)
  {
    AckMoves(s, h, inFlight, committable, remaining, c, commitOk);
    if InFlight(s, h) { AckRefines(s, h, inFlight, committable, remaining, c, commitOk); }
  }

  // Whatever handle is acked or rewound, in flight or not: no record of its partition is lost, now
  // or later, exactly when the handle's record overtakes none that is yet to be polled, or an ack
  // that does is refused its commit with nothing in flight.
  lemma AnyHandleIsSafeIff(s: State, h: Handle, commitOk: bool)
    requires Valid(s) && h.partition in s.broker && h.offset in View(s, h.partition).log
    ensures var b := View(s, h.partition);
      && (SafeFrom(AckedView(s, h.partition, h, commitOk)) <==>
          !(Overtakes(b, h.offset) && (commitOk || b.inFlight != {})))
      && (SafeFrom(RewoundView(s, h.partition, h)) <==> !Overtakes(b, h.offset))
  {
    var b := View(s, h.partition);
    InvIsSound(b);
    StaleRewindIsSafeIff(b, h.offset);
    if InFlight(s, h) {
      ListedIsInFlight(s, h.partition.topic, h);
      AckIsSafe(b, h.offset, commitOk);
      SoundIsSafe(AckIn(b, h.offset, commitOk));
    } else {
      StaleAckIsSafeIff(b, h.offset, commitOk);
    }
  }

  ghost predicate IsTop(list: seq<Handle>, offset: int) {
    (exists h :: h in list && h.offset == offset) && forall h :: h in list ==> h.offset <= offset
  }

  lemma TopIsMax(list: seq<Handle>, p: Partition, offset: int)
    requires list != [] && IsTop(list, offset)
    requires forall h :: h in list ==> h.partition == p
    ensures Offsets(list, p) != {} && MaxOf(Offsets(list, p)) == offset
  {
    var h :| h in list && h.offset == offset;
    assert h.offset in Offsets(list, p);
  }

  lemma AckOthers(pending: seq<Handle>, settled: seq<Handle>, h: Handle, inFlight: seq<Handle>,
                  floor: Option<nat>, remaining: seq<Handle>)
    requires h in pending && OnePerOffset(pending) && OnePerOffset(settled)
    requires Offsets(pending, h.partition) !! Offsets(settled, h.partition)
    requires forall k :: k in inFlight <==> k in pending && k != h
    requires forall k :: k in remaining <==> k in settled + [h] && !Reachable(k, h.partition, floor)
    ensures OnePerOffset(inFlight) && OnePerOffset(remaining)
    ensures forall o :: o != h.partition ==> Offsets(inFlight, o) == Offsets(pending, o)
    ensures forall o :: o != h.partition ==> Offsets(remaining, o) == Offsets(settled, o)
  {
    assert h.offset in Offsets(pending, h.partition);
    assert forall k :: k in settled && k.partition == h.partition ==> k.offset in Offsets(settled, h.partition);
    forall o | o != h.partition ensures Offsets(remaining, o) == Offsets(settled, o) {
      assert forall k: Handle :: k.partition == o ==> (k in remaining <==> k in settled);
    }
    forall o | o != h.partition ensures Offsets(inFlight, o) == Offsets(pending, o) {
      assert forall k: Handle :: k.partition == o ==> (k in inFlight <==> k in pending);
    }
  }

  predicate Reachable(k: Handle, p: Partition, floor: Option<nat>) {
    k.partition == p && (floor == None || k.offset < floor.value)
  }

  ghost predicate IsFloor(floor: Option<nat>, list: seq<Handle>, p: Partition) {
    match floor
    case None => Offsets(list, p) == {}
    case Some(m) => m in Offsets(list, p) && forall o :: o in Offsets(list, p) ==> m <= o
  }

  // ---- List operations -------------------------------------------------------------

  // `[h for h in pending if h is not handle]`
  method Without(list: seq<Handle>, handle: Handle) returns (kept: seq<Handle>)
    ensures forall h :: h in kept <==> h in list && h != handle
  {
    kept := [];
    for i := 0 to |list|
      invariant forall h :: h in kept <==> h in list[..i] && h != handle
    {
      if list[i] != handle { kept := kept + [list[i]]; }
    }
    assert list[..|list|] == list;
  }

  // `min(offsets of pending on the partition, default=None)`
  method Floor(list: seq<Handle>, p: Partition) returns (floor: Option<nat>)
    ensures IsFloor(floor, list, p)
  {
    floor := None;
    for i := 0 to |list|
      invariant IsFloor(floor, list[..i], p)
    {
      assert list[..i + 1] == list[..i] + [list[i]];
      if list[i].partition == p {
        assert Offsets(list[..i + 1], p) == Offsets(list[..i], p) + {list[i].offset};
        if floor == None || list[i].offset < floor.value { floor := Some(list[i].offset); }
      } else {
        assert Offsets(list[..i + 1], p) == Offsets(list[..i], p);
      }
    }
    assert list[..|list|] == list;
  }

  // The settled records a commit may reach, and the others.
  method Split(list: seq<Handle>, p: Partition, floor: Option<nat>)
    returns (committable: seq<Handle>, remaining: seq<Handle>)
    ensures forall h :: h in committable <==> h in list && Reachable(h, p, floor)
    ensures forall h :: h in remaining <==> h in list && !Reachable(h, p, floor)
  {
    committable, remaining := [], [];
    for i := 0 to |list|
      invariant forall h :: h in committable <==> h in list[..i] && Reachable(h, p, floor)
      invariant forall h :: h in remaining <==> h in list[..i] && !Reachable(h, p, floor)
    {
      if Reachable(list[i], p, floor) {
        committable := committable + [list[i]];
      } else {
        remaining := remaining + [list[i]];
      }
    }
    assert list[..|list|] == list;
  }

  // `max(committable, key=offset)`
  method Top(list: seq<Handle>) returns (top: Handle)
    requires list != []
    ensures top in list && forall h :: h in list ==> h.offset <= top.offset
  {
    top := list[0];
    for i := 1 to |list|
      invariant top in list
      invariant forall h :: h in list[..i] ==> h.offset <= top.offset
    {
      if top.offset < list[i].offset { top := list[i]; }
    }
    assert list[..|list|] == list;
  }

  // The records of other partitions, and those of this one before the offset.
  method KeptBefore(list: seq<Handle>, p: Partition, offset: nat) returns (kept: seq<Handle>)
    ensures IsKeptBefore(kept, list, p, offset)
  {
    kept := [];
    for i := 0 to |list|
      invariant forall h :: h in kept <==> h in list[..i] && (h.partition != p || h.offset < offset)
    {
      if list[i].partition != p || list[i].offset < offset { kept := kept + [list[i]]; }
    }
    assert list[..|list|] == list;
  }

  // The lowest record per partition, as `_rewind_abandoned` collects it.
  method LowestPerPartition(list: seq<Handle>) returns (lowest: map<Partition, Handle>)
    ensures lowest.Keys == set h | h in list :: h.partition
    ensures forall p :: p in lowest ==> lowest[p] in list && lowest[p].partition == p
    ensures forall h :: h in list ==> lowest[h.partition].offset <= h.offset
  {
    lowest := map[];
    for i := 0 to |list|
      invariant lowest.Keys == set h | h in list[..i] :: h.partition
      invariant forall p :: p in lowest ==> lowest[p] in list[..i] && lowest[p].partition == p
      invariant forall h :: h in list[..i] ==> h.partition in lowest && lowest[h.partition].offset <= h.offset
    {
      assert list[..i + 1] == list[..i] + [list[i]];
      var p := list[i].partition;
      if p !in lowest || list[i].offset < lowest[p].offset { lowest := lowest[p := list[i]]; }
    }
    assert list[..|list|] == list;
  }

  method LowestOfQueue(list: seq<Handle>, ghost s: State, ghost queue: string) returns (lowest: map<Partition, Handle>)
    requires Valid(s) && list == ListOf(s.pending, queue)
    ensures IsLowest(s, queue, lowest)
  {
    lowest := LowestPerPartition(list);
    LowestIsLow(s, queue, lowest);
  }

  // The list comprehensions of `ack`, in order.
  method SettledLists(pending: seq<Handle>, settled: seq<Handle>, h: Handle)
    returns (inFlight: seq<Handle>, committable: seq<Handle>, remaining: seq<Handle>)
    ensures AckComputes(pending, settled, h, inFlight, committable, remaining)
  {
    inFlight := Without(pending, h);
    var floor := Floor(inFlight, h.partition);
    committable, remaining := Split(settled + [h], h.partition, floor);
  }

  // ---- The transport ---------------------------------------------------------------

  class KafkaTransport {
    var pending: Lists
    var settled: Lists
    var broker: map<Partition, BrokerPartition>
    var nextId: nat

    ghost function Snapshot(): State
      reads this
    {
      State(pending, settled, broker, nextId)
    }

    constructor (partitions: set<Partition>)
      ensures Valid(Snapshot()) && broker.Keys == partitions
      ensures forall p :: p in broker ==> View(Snapshot(), p) == Fresh
    {
      pending, settled, nextId := map[], map[], 0;
      broker := map p | p in partitions :: BrokerPartition({}, 0, 0, 0, {}, {});
    }

    /** `ack`, of any handle: the record leaves the in-flight book whatever the commit does
        (`commitOk` says whether the client's commit was accepted). A message without a handle is
        ignored. */
    method Ack(queue: string, handle: Option<Handle>, commitOk: bool)
      requires Valid(Snapshot())
      requires handle.Some? ==> handle.value.partition in broker && handle.value.partition.topic == queue
      modifies this
      ensures OtherQueuesUnchanged(old(Snapshot()), Snapshot(), queue) && nextId == old(nextId)
      ensures handle == None ==> Snapshot() == old(Snapshot())
      ensures handle.Some? ==> !InFlight(Snapshot(), handle.value)
      ensures handle.Some? && InFlight(old(Snapshot()), handle.value) ==> Valid(Snapshot())
      ensures forall p :: p in broker && handle.Some? ==>
        View(Snapshot(), p) == AckedView(old(Snapshot()), p, handle.value, commitOk)
    {
      if handle == None { return; }
      var h := handle.value;
      var p := h.partition;
      ghost var before := Snapshot();

      var inFlight, committable, remaining := SettledLists(ListOf(pending, queue), ListOf(settled, queue), h);
      var b := broker[p];
      b := b.(acked := b.acked + {h.offset});
      if committable != [] {
        var top := Top(committable);
        if commitOk { b := b.(committed := top.offset + 1); }
      }
      pending := Store(pending, queue, inFlight);
      settled := Store(settled, queue, remaining);
      broker := broker[p := b];
      AckStep(before, h, inFlight, committable, remaining, b, commitOk);
    }

    /** `_forget_from`: drops the partition's records at or after the offset from both books. */
    method ForgetFrom(queue: string, p: Partition, offset: nat)
      returns (ghost keptPending: seq<Handle>, ghost keptSettled: seq<Handle>)
      modifies this
      ensures IsKeptBefore(keptPending, ListOf(old(pending), queue), p, offset)
      ensures IsKeptBefore(keptSettled, ListOf(old(settled), queue), p, offset)
      ensures pending == Store(old(pending), queue, keptPending) && settled == Store(old(settled), queue, keptSettled)
      ensures broker == old(broker) && nextId == old(nextId)
    {
      var kept := KeptBefore(ListOf(pending, queue), p, offset);
      keptPending := kept;
      pending := Store(pending, queue, kept);
      kept := KeptBefore(ListOf(settled, queue), p, offset);
      keptSettled := kept;
      settled := Store(settled, queue, kept);
    }

    /** `rewind`, of any handle: seek back to the record and forget it and what follows it. A seek
        that fails raises before either book is touched. */
    method Rewind(queue: string, handle: Option<Handle>, seekOk: bool) returns (raised: bool)
      requires Valid(Snapshot())
      requires handle.Some? ==> handle.value.partition in broker && handle.value.partition.topic == queue
      modifies this
      ensures OtherQueuesUnchanged(old(Snapshot()), Snapshot(), queue) && nextId == old(nextId)
      ensures raised <==> handle.Some? && !seekOk
      ensures handle == None || raised ==> Snapshot() == old(Snapshot())
      ensures handle.Some? && InFlight(old(Snapshot()), handle.value) ==> Valid(Snapshot())
      ensures forall p :: p in broker && handle.Some? && seekOk ==>
        View(Snapshot(), p) == RewoundView(old(Snapshot()), p, handle.value)
    {
      if handle == None { return false; }
      if !seekOk { return true; }
      raised := false;
      ghost var before := Snapshot();
      var h := handle.value;
      var p := h.partition;
      broker := broker[p := broker[p].(position := h.offset)];
      ghost var keptPending, keptSettled := ForgetFrom(queue, p, h.offset);
      ForgetMoves(before, p, h.offset, h.offset, keptPending, keptSettled);
      if InFlight(before, h) {
        ListedIsInFlight(before, queue, h);
        RewindKeeps(View(before, p), h.offset);
        ForgetRefines(before, p, h.offset, h.offset, keptPending, keptSettled);
      }
    }

    // One turn of the loop of `_rewind_abandoned`.
    method TakeBack(queue: string, lowest: Handle, seekOk: Partition -> bool, ghost before: State,
                    ghost todo: set<Partition>)
      requires Valid(Snapshot()) && TakingBack(before, Snapshot(), queue, seekOk, todo) && lowest.partition in todo
      requires lowest.partition in before.broker && lowest.partition.topic == queue
      requires View(before, lowest.partition).inFlight != {} && Low(View(before, lowest.partition)) == lowest.offset
      modifies this
      ensures Valid(Snapshot()) && TakingBack(before, Snapshot(), queue, seekOk, todo - {lowest.partition})
    {
      ghost var now := Snapshot();
      var p, offset := lowest.partition, lowest.offset;
      assert Inv(View(now, p)) && View(now, p) == View(before, p);
      AbandonKeeps(View(now, p), seekOk(p));
      broker := broker[p := broker[p].(position := if seekOk(p) then offset else broker[p].committed)];
      ghost var keptPending, keptSettled := ForgetFrom(queue, p, offset);
      ForgetRefines(now, p, offset, broker[p].position, keptPending, keptSettled);
      TakingBackGoesOn(before, now, Snapshot(), queue, seekOk, todo, p);
    }

    /** `_rewind_abandoned`: every partition of the queue is taken back to its lowest record
        that was neither acked nor rewound; nothing of the queue is in flight afterwards. */
    method RewindAbandoned(queue: string, seekOk: Partition -> bool)
      requires Valid(Snapshot())
      modifies this
      ensures Valid(Snapshot()) && TakingBack(old(Snapshot()), Snapshot(), queue, seekOk, {})
      ensures queue !in pending
    {
      ghost var before := Snapshot();
      var list := ListOf(pending, queue);
      if list == [] {
        NothingToTakeBack(before, queue, seekOk);
        return;
      }
      var lowest := LowestOfQueue(list, before, queue);
      TakingBackStarts(before, queue, seekOk, lowest);
      var todo := lowest.Keys;
      while todo != {}
        invariant todo <= lowest.Keys
        invariant Valid(Snapshot()) && TakingBack(before, Snapshot(), queue, seekOk, todo)
      {
        var p :| p in todo;
        TakeBack(queue, lowest[p], seekOk, before, todo);
        todo := todo - {p};
      }
      AllTakenBack(before, Snapshot(), queue, seekOk);
      pending := pending - {queue};
    }

    /** `_poll_one`: the next record of the partition that answered the poll, tracked as in
        flight once a delivery is built from it; `Undecodable` is the exception that escapes
        when none can be built. */
    method PollOne(queue: string, arrival: Arrival) returns (polled: Polled)
      requires Valid(Snapshot())
      modifies this
      ensures Valid(Snapshot()) && OnePoll(old(Snapshot()), Snapshot(), queue, arrival, polled)
      ensures ListOf(pending, queue) == ListOf(old(pending), queue) + (if polled.Delivery? then [polled.handle] else [])
    {
      if arrival == Nothing || Partition(queue, arrival.number) !in broker { return NoMessage; }
      var p := Partition(queue, arrival.number);
      ghost var before := Snapshot();
      var next := NextRecord(broker[p], View(before, p));
      if next == None { return NoMessage; }
      var h := Handle(p, next.value, nextId);
      PollRefines(before, h, arrival.builds);
      Track(h, arrival.builds);
      polled := if arrival.builds then Delivery(h) else Undecodable;
    }

    // The record was polled; it is in flight once a delivery is built from it.
    method Track(h: Handle, builds: bool)
      requires h.partition in broker
      modifies this
      ensures Snapshot() == PolledState(old(Snapshot()), h, builds)
    {
      var p, queue := h.partition, h.partition.topic;
      var b := broker[p].(position := h.offset + 1);
      nextId := nextId + 1;
      if builds {
        pending := Store(pending, queue, ListOf(pending, queue) + [h]);
        broker := broker[p := b];
      } else {
        broker := broker[p := b.(skipped := b.skipped + {h.offset})];
      }
    }

    /** `pop`. */
    method Pop(queue: string, arrival: Arrival, seekOk: Partition -> bool) returns (polled: Polled)
      requires Valid(Snapshot())
      modifies this
      ensures Valid(Snapshot()) && AfterPolls(old(Snapshot()), Snapshot(), queue, seekOk, [arrival], 1)
      ensures ListOf(pending, queue) == (if polled.Delivery? then [polled.handle] else [])
      ensures Yields(old(Snapshot()), queue, seekOk, [arrival], 0, polled)
    {
      RewindAbandoned(queue, seekOk);
      ghost var now := Snapshot();
      NothingPolled(old(Snapshot()), now, queue, seekOk, [arrival]);
      polled := PollOne(queue, arrival);
      PollGoesOn(old(Snapshot()), now, Snapshot(), queue, seekOk, [arrival], 0, polled);
    }

    /** `pop_batch`: the abandoned records are taken back once, up front, so a record of the
        batch is never polled a second time while the batch is collected. */
    method PopBatch(queue: string, max: nat, arrivals: seq<Arrival>, seekOk: Partition -> bool)
      returns (batch: seq<Handle>, raised: bool, ghost polls: nat)
      requires Valid(Snapshot())
      modifies this
      ensures Valid(Snapshot()) && AfterPolls(old(Snapshot()), Snapshot(), queue, seekOk, arrivals, polls)
      ensures batch == ListOf(pending, queue) && OnePerOffset(batch)
      ensures IsBatch(old(Snapshot()), queue, max, seekOk, arrivals, batch, polls)
      ensures raised <==>
        batch == [] && polls == 1 && AnswersAt(old(Snapshot()), queue, seekOk, arrivals, 0) && !arrivals[0].builds
    {
      ghost var before := Snapshot();
      RewindAbandoned(queue, seekOk);
      batch, raised, polls := [], false, 0;
      NothingPolled(before, Snapshot(), queue, seekOk, arrivals);
      var i := 0;
      while i < |arrivals| && (max == 0 || |batch| < max)
        invariant polls == i == |batch| <= |arrivals| && !raised
        invariant Valid(Snapshot()) && batch == ListOf(pending, queue)
        invariant Collected(before, Snapshot(), queue, max, seekOk, arrivals, batch)
      {
        ghost var now := Snapshot();
        var polled := PollOne(queue, arrivals[i]);
        BatchGoesOn(before, now, Snapshot(), queue, max, seekOk, arrivals, batch, polled);
        i, polls := i + 1, polls + 1;
        if polled == NoMessage { break; }
        if polled == Undecodable {
          raised := batch == [];
          break;
        }
        batch := batch + [polled.handle];
      }
      if polls == |batch| { NoMorePolls(before, Snapshot(), queue, max, seekOk, arrivals, batch); }
      ListsAreValid(Snapshot(), queue);
    }

    // The process dies: both books go with it and every poll position falls back to the commit.
    method Restart()
      requires Valid(Snapshot())
      modifies this
      ensures Valid(Snapshot()) && broker.Keys == old(broker.Keys)
      ensures forall p :: p in broker ==> View(Snapshot(), p) == CrashIn(View(old(Snapshot()), p))
    {
      ghost var before := Snapshot();
      pending, settled := map[], map[];
      broker := map p | p in broker :: broker[p].(position := broker[p].committed);
      forall p | p in broker ensures View(Snapshot(), p) == CrashIn(View(before, p)) && Inv(View(Snapshot(), p)) {
        assert Inv(View(before, p)) && Offsets([], p) == {};
        StepKeeps(View(before, p), Crash);
      }
    }

    // A producer appends a record to a partition.
    method Produce(p: Partition, offset: nat)
      requires Valid(Snapshot()) && p in broker && broker[p].end <= offset
      modifies this
      ensures Valid(Snapshot()) && broker.Keys == old(broker.Keys) && pending == old(pending) && settled == old(settled)
      ensures forall o :: o in broker ==>
        View(Snapshot(), o) == (if o == p then AppendTo(View(old(Snapshot()), p), offset) else View(old(Snapshot()), o))
    {
      ghost var before := Snapshot();
      ghost var b := broker[p].(log := broker[p].log + {offset}, end := offset + 1);
      assert Inv(View(before, p));
      AppendKeeps(View(before, p), offset);
      RestoredLists(before, p.topic);
      ListsAreValid(before, p.topic);
      ReplaceKeeps(before, p.topic, ListOf(pending, p.topic), ListOf(settled, p.topic), p, b);
      broker := broker[p := broker[p].(log := broker[p].log + {offset}, end := offset + 1)];
    }
  }
}
