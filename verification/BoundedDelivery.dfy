/**
  Whole runs of the consume loop over the in-process transport: each delivery is dispatched as
  Settlement.dfy says, every publish succeeds, and the handlers end however they like.
*/
module BoundedDelivery {
  import opened Helpers
  import opened Settlement
  import D = Destinations

  // A message in a queue; `tag` follows it through its retries.
  datatype Item = Item(tag: int, body: Body)

  // Raised: an exception left the dispatch, and with it the loop.
  datatype End = Handled | Buried | Dropped | Raised

  datatype Run = Run(
    queue: seq<Item>, ended: seq<(int, End)>, dead: seq<(int, Payload)>, deliveries: nat, escaped: bool)

  function StartOf(queue: seq<Item>): Run {
    Run(queue, [], [], 0, false)
  }

  // The in-process transport has no optional capability.
  function Memory(): Capabilities {
    Capabilities(false, false, false, false, NoNative, false, false, None)
  }

  function Received(q: string, item: Item): Delivery {
    Delivery(item.body, q, NoRoute, 0)
  }

  function OutcomeOf(cfg: Config, q: string, item: Item, h: HandlerResult): Outcome {
    DispatchOutcome(cfg, Memory(), Received(q, item), h, (_: nat) => Done, 0)
  }

  function BodyOf(p: Payload): Body {
    match p
    case Raw(body) => body
    case Encoded(e) => Enveloped(e, false)
    case Annotated(e, _, _) => Enveloped(e, false)
    case Preserved(body, _) => body
  }

  // The write of a dispatch: its first call, or the one after the handler's.
  function WriteOf(t: Trace): Option<Effect> {
    if |t| > 0 && t[0].Wrote? then Some(t[0])
    else if |t| > 1 && t[1].Wrote? then Some(t[1])
    else None
  }

  // What one delivery adds to the queue, to the dead-letter queue and to the messages that ended.
  datatype Turn = Turn(back: seq<Item>, dead: seq<(int, Payload)>, ended: seq<(int, End)>, raised: bool)

  function TurnOf(cfg: Config, q: string, item: Item, h: HandlerResult): Turn {
    var d := OutcomeOf(cfg, q, item, h);
    match WriteOf(d.trace)
    case Some(w) =>
      var end := if w.purpose.Again? then [] else [(item.tag, Buried)];
      if w.queue == q then Turn([Item(item.tag, BodyOf(w.payload))], [], end, d.raised)
      else Turn([], [(item.tag, w.payload)], end, d.raised)
    case None =>
      var handled := d.trace != [] && d.trace[0].Invoked? && d.trace[0].result.Returns?;
      Turn([], [], [(item.tag, if d.raised then Raised else if handled then Handled else Dropped)], d.raised)
  }

  type Dispatcher = (Item, HandlerResult) -> Turn

  // One turn of the loop: the head is taken off and dispatched, and what is written is appended
  // to the queue it names.
  function Advance(f: Dispatcher, s: Run, h: HandlerResult): Run
    requires s.queue != []
  {
    var turn := f(s.queue[0], h);
    Run(s.queue[1..] + turn.back, s.ended + turn.ended, s.dead + turn.dead, s.deliveries + 1, turn.raised)
  }

  function Iterate(f: Dispatcher, s: Run, outcomes: nat -> HandlerResult, turns: nat): Run
    decreases turns
  {
    if turns == 0 || s.queue == [] || s.escaped then s
    else Iterate(f, Advance(f, s, outcomes(s.deliveries)), outcomes, turns - 1)
  }

  function Dispatching(cfg: Config, q: string): Dispatcher {
    (item, h) => TurnOf(cfg, q, item, h)
  }

  function Step(cfg: Config, q: string, s: Run, h: HandlerResult): Run
    requires s.queue != []
  {
    Advance(Dispatching(cfg, q), s, h)
  }

  function RunOf(cfg: Config, q: string, s: Run, outcomes: nat -> HandlerResult, turns: nat): Run {
    Iterate(Dispatching(cfg, q), s, outcomes, turns)
  }

  lemma RunUnfolds(cfg: Config, q: string, s: Run, outcomes: nat -> HandlerResult, turns: nat)
    ensures turns == 0 || s.queue == [] || s.escaped ==> RunOf(cfg, q, s, outcomes, turns) == s
    ensures turns != 0 && s.queue != [] && !s.escaped ==>
      RunOf(cfg, q, s, outcomes, turns) == RunOf(cfg, q, Step(cfg, q, s, outcomes(s.deliveries)), outcomes, turns - 1)
  {
  }

  // ---- The budget ---------------------------------------------------------------------------

  // The attempts a body counts, as envelope or as poison.
  function Counted(b: Body): int {
    if IsPoison(b, true) then PoisonAttempts(Delivery(b, "", NoRoute, 0)) else AttemptsOf(b.env)
  }

  function Budget(cfg: Config, b: Body): nat {
    Max(1, cfg.maxAttempts - Counted(b))
  }

  function TotalBudget(cfg: Config, queue: seq<Item>): nat {
    if queue == [] then 0 else Budget(cfg, queue[0].body) + TotalBudget(cfg, queue[1..])
  }

  lemma {:induction false} TotalBudgetAppend(cfg: Config, a: seq<Item>, x: Item)
    ensures TotalBudget(cfg, a + [x]) == TotalBudget(cfg, a) + Budget(cfg, x.body)
  {
    if a == [] {
      assert a + [x] == [x];
    } else {
      assert (a + [x])[1..] == a[1..] + [x];
      TotalBudgetAppend(cfg, a[1..], x);
    }
  }

  // A message whose release is verbatim: its URN is known to nobody and the strategy is release.
  predicate ReleasedVerbatim(cfg: Config, b: Body) {
    cfg.strategy.Release? && !IsPoison(b, true) && UrnOf(b.env) !in cfg.handlers
  }

  // The attempts are null, and the turn comes to read them.
  predicate Raises(cfg: Config, b: Body, h: HandlerResult) {
    && !IsPoison(b, true) && NullAttempts(b.env)
    && if UrnOf(b.env) in cfg.handlers then h.Throws? else !cfg.strategy.Delete? && !cfg.strategy.Release?
  }

  // No handler result makes a turn of the message raise.
  predicate Countable(cfg: Config, b: Body) {
    !Raises(cfg, b, Throws(false))
  }

  predicate AllCountable(cfg: Config, queue: seq<Item>) {
    forall i :: 0 <= i < |queue| ==> Countable(cfg, queue[i].body)
  }

  // A handler is called for the message.
  predicate Mapped(cfg: Config, b: Body) {
    !IsPoison(b, true) && UrnOf(b.env) in cfg.handlers
  }

  // A message that is dead-lettered sooner or later, if need be because its handler fails.
  predicate Buriable(cfg: Config, b: Body) {
    if IsPoison(b, true) then !cfg.strategy.Delete? && KeepsDead(cfg)
    else if UrnOf(b.env) in cfg.handlers then cfg.deadLetter
    else !cfg.strategy.Delete? && !cfg.strategy.Release? && KeepsDead(cfg)
  }

  // A burial that goes back to the work queue, which is its own dead-letter queue.
  predicate Reburied(cfg: Config, q: string, b: Body) {
    Target(cfg, Memory(), q) == q && Buriable(cfg, b)
  }

  predicate NoneReburied(cfg: Config, q: string, queue: seq<Item>) {
    forall i :: 0 <= i < |queue| ==> !Reburied(cfg, q, queue[i].body)
  }

  predicate NoneVerbatim(cfg: Config, queue: seq<Item>) {
    forall i :: 0 <= i < |queue| ==> !ReleasedVerbatim(cfg, queue[i].body)
  }

  // ---- One turn -------------------------------------------------------------------------------

  // Whether a delivery is retried: the handler threw or there is none, and attempts are left.
  predicate Retried(cfg: Config, b: Body, h: HandlerResult) {
    && Counted(b) + 1 < cfg.maxAttempts && !Raises(cfg, b, h)
    && if IsPoison(b, true) then !cfg.strategy.Delete? && !KeepsDead(cfg)
       else if UrnOf(b.env) in cfg.handlers then h.Throws?
       else cfg.strategy.Fail?
  }

  lemma TurnRetries(cfg: Config, q: string, item: Item, h: HandlerResult)
    requires !ReleasedVerbatim(cfg, item.body) && Retried(cfg, item.body, h)
    ensures var w := WriteOf(OutcomeOf(cfg, q, item, h).trace);
      && w.Some? && w.value.purpose.Again? && w.value.queue == q
      && Budget(cfg, BodyOf(w.value.payload)) == Budget(cfg, item.body) - 1
      && !ReleasedVerbatim(cfg, BodyOf(w.value.payload)) && Countable(cfg, BodyOf(w.value.payload))
      && (Buriable(cfg, BodyOf(w.value.payload)) <==> Buriable(cfg, item.body))
      && (Mapped(cfg, BodyOf(w.value.payload)) <==> Mapped(cfg, item.body))
      && !OutcomeOf(cfg, q, item, h).raised
  {
    var m := Received(q, item);
    var e := if IsPoison(item.body, true) then Hollow(PoisonAttempts(m)) else item.body.env;
    assert AfterFailure(cfg, m, e, true) == GiveBack(Encoded(WithAttempts(e, AttemptsOf(e) + 1)));
  }

  lemma TurnEnds(cfg: Config, q: string, item: Item, h: HandlerResult)
    requires !ReleasedVerbatim(cfg, item.body) && !Retried(cfg, item.body, h)
    ensures var d := OutcomeOf(cfg, q, item, h);
      var w := WriteOf(d.trace);
      && (d.raised <==> Raises(cfg, item.body, h)) && (d.raised ==> w == None)
      && (w.Some? ==>
          w.value.purpose.Grave? && w.value.queue == Target(cfg, Memory(), q) && Buriable(cfg, item.body))
  {
  }

  // How the turn of a message ends it: handled when its handler returned, raised over null attempts,
  // buried and dropped by the rules of the dead-letter queue and of the drops, and not at all when
  // it goes back; and what joins the dead-letter queue is the record those rules ask for.
  ghost predicate EndsAs(cfg: Config, q: string, item: Item, h: HandlerResult, turn: Turn) {
    var m, o: Oracle := Received(q, item), (_: nat) => Done;
    && (turn.ended == [] <==> D.TriesReturn(cfg, Memory(), m, h, o, 0))
    && (turn.ended == [(item.tag, Handled)] <==> D.Ordinary(Memory(), m) && D.Mapped(cfg, m) && h.Returns?)
    && (turn.ended == [(item.tag, Raised)] <==> Raises(cfg, item.body, h))
    && (turn.ended == [(item.tag, Buried)] <==> D.TriesBurial(cfg, Memory(), m, h, o, 0))
    && (turn.ended == [(item.tag, Dropped)] <==> D.Drops(cfg, Memory(), m, h, o, 0))
    && (forall x :: x in turn.dead ==> x.0 == item.tag && D.GraveFits(cfg, Memory(), m, h, x.1))
  }

  lemma TurnEndsAs(cfg: Config, q: string, item: Item, h: HandlerResult)
    ensures EndsAs(cfg, q, item, h, TurnOf(cfg, q, item, h))
  {
    var m, o: Oracle := Received(q, item), (_: nat) => Done;
    D.TableFits(cfg, Memory(), m, h);
    if D.Ordinary(Memory(), m) && D.Mapped(cfg, m) {
      HandledEndsAs(cfg, q, item, h);
    } else {
      D.PlanFollows(cfg, Memory(), m, h, o, 0);
    }
  }

  lemma HandledEndsAs(cfg: Config, q: string, item: Item, h: HandlerResult)
    requires D.Ordinary(Memory(), Received(q, item)) && D.Mapped(cfg, Received(q, item))
    ensures EndsAs(cfg, q, item, h, TurnOf(cfg, q, item, h))
  {
    D.HandlingFollows(cfg, Memory(), Received(q, item), h, (_: nat) => Done, 0);
    if h.Throws? { D.FailureFits(cfg, Memory(), Received(q, item), h, h.unknownUrn); }
  }

  function Tags(queue: seq<Item>): multiset<int> {
    multiset(seq(|queue|, i requires 0 <= i < |queue| => queue[i].tag))
  }

  function EndedTags(ended: seq<(int, End)>): multiset<int> {
    multiset(seq(|ended|, i requires 0 <= i < |ended| => ended[i].0))
  }

  lemma TagsSplit(queue: seq<Item>)
    requires queue != []
    ensures Tags(queue) == multiset{queue[0].tag} + Tags(queue[1..])
  {
    var all := seq(|queue|, i requires 0 <= i < |queue| => queue[i].tag);
    assert all == [queue[0].tag] + seq(|queue[1..]|, i requires 0 <= i < |queue[1..]| => queue[1..][i].tag);
  }

  lemma TagsAppend(queue: seq<Item>, x: Item)
    ensures Tags(queue + [x]) == Tags(queue) + multiset{x.tag}
  {
    assert seq(|queue + [x]|, i requires 0 <= i < |queue + [x]| => (queue + [x])[i].tag)
        == seq(|queue|, i requires 0 <= i < |queue| => queue[i].tag) + [x.tag];
  }

  lemma EndedAppend(ended: seq<(int, End)>, x: (int, End))
    ensures EndedTags(ended + [x]) == EndedTags(ended) + multiset{x.0}
  {
    assert seq(|ended + [x]|, i requires 0 <= i < |ended + [x]| => (ended + [x])[i].0)
        == seq(|ended|, i requires 0 <= i < |ended| => ended[i].0) + [x.0];
  }

  // The messages that ended in the dead-letter queue, in order.
  function BuriedTags(ended: seq<(int, End)>): seq<int> {
    if ended == [] then []
    else
      var last := ended[|ended| - 1];
      BuriedTags(ended[..|ended| - 1]) + (if last.1.Buried? then [last.0] else [])
  }

  function DeadTags(dead: seq<(int, Payload)>): seq<int> {
    seq(|dead|, i requires 0 <= i < |dead| => dead[i].0)
  }

  // What one turn keeps and what it uses up.
  ghost predicate Advances(cfg: Config, q: string, s: Run, t: Run) {
    && t.deliveries == s.deliveries + 1
    && TotalBudget(cfg, t.queue) < TotalBudget(cfg, s.queue)
    && NoneVerbatim(cfg, t.queue) && NoneReburied(cfg, q, t.queue)
    && (AllCountable(cfg, s.queue) ==> AllCountable(cfg, t.queue) && !t.escaped)
    && Tags(t.queue) + EndedTags(t.ended) == Tags(s.queue) + EndedTags(s.ended)
    && (DeadTags(s.dead) == BuriedTags(s.ended) ==> DeadTags(t.dead) == BuriedTags(t.ended))
  }

  lemma RetryAdvances(cfg: Config, q: string, s: Run, t: Run, again: Item)
    requires s.queue != [] && NoneVerbatim(cfg, s.queue) && NoneReburied(cfg, q, s.queue)
    requires t == Run(s.queue[1..] + [again], s.ended + [], s.dead + [], s.deliveries + 1, false)
    requires again.tag == s.queue[0].tag && !ReleasedVerbatim(cfg, again.body) && Countable(cfg, again.body)
    requires Budget(cfg, again.body) < Budget(cfg, s.queue[0].body)
    requires Buriable(cfg, again.body) <==> Buriable(cfg, s.queue[0].body)
    ensures Advances(cfg, q, s, t)
  {
    assert t.ended == s.ended && t.dead == s.dead;
    TagsSplit(s.queue);
    TagsAppend(s.queue[1..], again);
    TotalBudgetAppend(cfg, s.queue[1..], again);
  }

  lemma EndAdvances(cfg: Config, q: string, s: Run, t: Run, end: End, dead: seq<(int, Payload)>, raised: bool)
    requires s.queue != [] && NoneVerbatim(cfg, s.queue) && NoneReburied(cfg, q, s.queue)
    requires (raised ==> !Countable(cfg, s.queue[0].body))
    requires t == Run(s.queue[1..] + [], s.ended + [(s.queue[0].tag, end)], s.dead + dead, s.deliveries + 1, raised)
    requires if end.Buried? then |dead| == 1 && dead[0].0 == s.queue[0].tag else dead == []
    ensures Advances(cfg, q, s, t)
  {
    assert t.queue == s.queue[1..];
    TagsSplit(s.queue);
    EndedAppend(s.ended, (s.queue[0].tag, end));
    assert t.ended[..|t.ended| - 1] == s.ended;
    assert DeadTags(t.dead) == DeadTags(s.dead) + DeadTags(dead);
    assert DeadTags(dead) == if end.Buried? then [s.queue[0].tag] else [];
  }

  lemma StepAdvances(cfg: Config, q: string, s: Run, h: HandlerResult)
    requires s.queue != [] && NoneVerbatim(cfg, s.queue) && NoneReburied(cfg, q, s.queue)
    ensures Advances(cfg, q, s, Step(cfg, q, s, h))
  {
    var item := s.queue[0];
    var t := Step(cfg, q, s, h);
    var w := WriteOf(OutcomeOf(cfg, q, item, h).trace);
    if Retried(cfg, item.body, h) {
      TurnRetries(cfg, q, item, h);
      RetryAdvances(cfg, q, s, t, Item(item.tag, BodyOf(w.value.payload)));
    } else {
      TurnEnds(cfg, q, item, h);
      var turn := TurnOf(cfg, q, item, h);
      EndAdvances(cfg, q, s, t, turn.ended[0].1, turn.dead, turn.raised);
    }
  }

  lemma NoTags()
    ensures Tags([]) == multiset{} && EndedTags([]) == multiset{} && DeadTags([]) == []
  {
  }

  // What a run of at most that many turns keeps.
  ghost predicate Bounded(cfg: Config, s: Run, t: Run, turns: nat) {
    && t.deliveries + TotalBudget(cfg, t.queue) <= s.deliveries + TotalBudget(cfg, s.queue)
    && (t.queue == [] || t.escaped || t.deliveries == s.deliveries + turns)
    && (AllCountable(cfg, s.queue) ==> !t.escaped)
    && Tags(t.queue) + EndedTags(t.ended) == Tags(s.queue) + EndedTags(s.ended)
    && (DeadTags(s.dead) == BuriedTags(s.ended) ==> DeadTags(t.dead) == BuriedTags(t.ended))
  }

  lemma AdvanceThenBounded(cfg: Config, q: string, s: Run, u: Run, t: Run, turns: nat)
    requires turns > 0 && Advances(cfg, q, s, u)
    requires if u.escaped then t == u else Bounded(cfg, u, t, turns - 1)
    ensures Bounded(cfg, s, t, turns)
  {
  }

  // Every turn a dispatcher takes advances.
  ghost predicate Advancing(cfg: Config, q: string, f: Dispatcher) {
    forall s: Run, h: HandlerResult :: s.queue != [] && NoneVerbatim(cfg, s.queue) && NoneReburied(cfg, q, s.queue) ==>
      Advances(cfg, q, s, Advance(f, s, h))
  }

  lemma {:induction false} IterationIsBounded(cfg: Config, q: string, f: Dispatcher, s: Run,
                                              outcomes: nat -> HandlerResult, turns: nat)
    requires Advancing(cfg, q, f) && NoneVerbatim(cfg, s.queue) && NoneReburied(cfg, q, s.queue) && !s.escaped
    ensures Bounded(cfg, s, Iterate(f, s, outcomes, turns), turns)
    decreases turns
  {
    if turns != 0 && s.queue != [] {
      var u := Advance(f, s, outcomes(s.deliveries));
      assert Advances(cfg, q, s, u);
      if u.escaped {
        assert Iterate(f, u, outcomes, turns - 1) == u;
      } else {
        IterationIsBounded(cfg, q, f, u, outcomes, turns - 1);
      }
      AdvanceThenBounded(cfg, q, s, u, Iterate(f, s, outcomes, turns), turns);
    }
  }

  // However the handlers end, the deliveries are at most the attempts the messages have left,
  // no message is lost or doubled on the way, and the loop goes on unless a message with null
  // attempts ends it.
  lemma RunIsBounded(cfg: Config, q: string, s: Run, outcomes: nat -> HandlerResult, turns: nat)
    requires NoneVerbatim(cfg, s.queue) && NoneReburied(cfg, q, s.queue) && !s.escaped
    ensures Bounded(cfg, s, RunOf(cfg, q, s, outcomes, turns), turns)
  {
    forall r: Run, h | r.queue != [] && NoneVerbatim(cfg, r.queue) && NoneReburied(cfg, q, r.queue)
      ensures Advances(cfg, q, r, Advance(Dispatching(cfg, q), r, h))
    {
      StepAdvances(cfg, q, r, h);
    }
    IterationIsBounded(cfg, q, Dispatching(cfg, q), s, outcomes, turns);
  }

  lemma {:induction false} BudgetCounts(cfg: Config, queue: seq<Item>)
    ensures TotalBudget(cfg, queue) >= |queue|
  {
    if queue != [] { BudgetCounts(cfg, queue[1..]); }
  }

  lemma Concludes(cfg: Config, s: Run, t: Run, turns: nat)
    requires s == StartOf(s.queue) && turns >= TotalBudget(cfg, s.queue)
    requires Bounded(cfg, s, t, turns) && !t.escaped
    ensures t.queue == [] && EndedTags(t.ended) == Tags(s.queue)
  {
    NoTags();
    BudgetCounts(cfg, t.queue);
    assert t.queue == [];
    assert s.ended == [];
    assert Tags(t.queue) == multiset{} && EndedTags(s.ended) == multiset{};
    assert EndedTags(t.ended) == Tags(t.queue) + EndedTags(t.ended)
        == Tags(s.queue) + EndedTags(s.ended) == Tags(s.queue);
  }

  // So the run drains, and every message ends exactly once: handled, dropped, or in the
  // dead-letter queue, which holds exactly the buried ones.
  lemma RunDrains(cfg: Config, q: string, queue: seq<Item>, outcomes: nat -> HandlerResult, turns: nat)
    requires NoneVerbatim(cfg, queue) && NoneReburied(cfg, q, queue) && AllCountable(cfg, queue)
    requires turns >= TotalBudget(cfg, queue)
    ensures var t := RunOf(cfg, q, StartOf(queue), outcomes, turns);
      && t.queue == [] && !t.escaped && t.deliveries <= TotalBudget(cfg, queue)
      && EndedTags(t.ended) == Tags(queue) && DeadTags(t.dead) == BuriedTags(t.ended)
  {
    var s := StartOf(queue);
    NoTags();
    RunIsBounded(cfg, q, s, outcomes, turns);
    Concludes(cfg, s, RunOf(cfg, q, s, outcomes, turns), turns);
  }

  // ---- When it does not ----------------------------------------------------------------------

  lemma StepKeepsOthers(cfg: Config, q: string, s: Run, h: HandlerResult)
    requires s.queue != []
    ensures s.queue[1..] <= Step(cfg, q, s, h).queue
  {
  }

  lemma VerbatimStays(cfg: Config, q: string, s: Run, h: HandlerResult)
    requires !NoneVerbatim(cfg, s.queue)
    ensures !NoneVerbatim(cfg, Step(cfg, q, s, h).queue)
  {
    var i :| 0 <= i < |s.queue| && ReleasedVerbatim(cfg, s.queue[i].body);
    var t := Step(cfg, q, s, h);
    if i == 0 {
      VerbatimComesBack(cfg, q, s.queue[0], h);
      assert ReleasedVerbatim(cfg, t.queue[|s.queue| - 1].body);
    } else {
      StepKeepsOthers(cfg, q, s, h);
      assert t.queue[i - 1] == s.queue[1..][i - 1] == s.queue[i];
    }
  }

  // A message of an unknown URN under the release strategy goes back as it came, every time: a
  // queue that holds one never drains.
  lemma {:induction false} VerbatimNeverDrains(cfg: Config, q: string, s: Run, outcomes: nat -> HandlerResult,
                                               turns: nat)
    requires !NoneVerbatim(cfg, s.queue)
    ensures !NoneVerbatim(cfg, RunOf(cfg, q, s, outcomes, turns).queue)
    decreases turns
  {
    RunUnfolds(cfg, q, s, outcomes, turns);
    if turns != 0 && !s.escaped {
      VerbatimStays(cfg, q, s, outcomes(s.deliveries));
      VerbatimNeverDrains(cfg, q, Step(cfg, q, s, outcomes(s.deliveries)), outcomes, turns - 1);
    }
  }

  // A message that no failing turn takes off the queue for good, save by raising.
  predicate Recurs(cfg: Config, q: string, b: Body) {
    ReleasedVerbatim(cfg, b) || !Countable(cfg, b) || Reburied(cfg, q, b)
  }

  ghost predicate NoneRecurs(cfg: Config, q: string, queue: seq<Item>) {
    forall i :: 0 <= i < |queue| ==> !Recurs(cfg, q, queue[i].body)
  }

  lemma BuriedTurn(cfg: Config, q: string, item: Item, h: HandlerResult)
    requires Reburied(cfg, q, item.body) && !Retried(cfg, item.body, h) && !Raises(cfg, item.body, h)
    requires h.Throws? || !Mapped(cfg, item.body)
    ensures var w := WriteOf(OutcomeOf(cfg, q, item, h).trace);
      && w.Some? && Buriable(cfg, BodyOf(w.value.payload)) && Countable(cfg, BodyOf(w.value.payload))
      && (Mapped(cfg, BodyOf(w.value.payload)) <==> Mapped(cfg, item.body))
  {
  }

  // Such a message comes back, or null attempts end the loop.
  ghost predicate ComesBack(cfg: Config, q: string, item: Item, turn: Turn) {
    if turn.raised then !Countable(cfg, item.body)
    else
      && |turn.back| == 1 && Recurs(cfg, q, turn.back[0].body) && Countable(cfg, turn.back[0].body)
      && (Mapped(cfg, turn.back[0].body) <==> Mapped(cfg, item.body))
  }

  lemma RecursAgain(cfg: Config, q: string, item: Item, h: HandlerResult)
    requires Recurs(cfg, q, item.body) && (h.Throws? || !Mapped(cfg, item.body))
    ensures ComesBack(cfg, q, item, TurnOf(cfg, q, item, h))
  {
    if ReleasedVerbatim(cfg, item.body) {
      VerbatimComesBack(cfg, q, item, h);
    } else if Retried(cfg, item.body, h) {
      TurnRetries(cfg, q, item, h);
    } else {
      TurnEnds(cfg, q, item, h);
      if !Raises(cfg, item.body, h) { BuriedTurn(cfg, q, item, h); }
    }
  }

  lemma RecurringStays(cfg: Config, q: string, s: Run, turn: Turn, t: Run)
    requires s.queue != [] && !NoneRecurs(cfg, q, s.queue)
    requires Recurs(cfg, q, s.queue[0].body) ==> ComesBack(cfg, q, s.queue[0], turn)
    requires t.queue == s.queue[1..] + turn.back && t.escaped == turn.raised
    ensures t.escaped || !NoneRecurs(cfg, q, t.queue)
  {
    var i :| 0 <= i < |s.queue| && Recurs(cfg, q, s.queue[i].body);
    if i == 0 {
      assert !t.escaped ==> t.queue[|s.queue| - 1] == turn.back[0];
    } else {
      assert t.queue[i - 1] == s.queue[i];
    }
  }

  ghost predicate KeepsRecurring(cfg: Config, q: string, s: Run, t: Run) {
    !NoneRecurs(cfg, q, s.queue) ==> t.escaped || !NoneRecurs(cfg, q, t.queue)
  }

  lemma {:induction false} IterationKeepsRecurring(cfg: Config, q: string, f: Dispatcher, s: Run,
                                                   outcomes: nat -> HandlerResult, turns: nat)
    requires forall r: Run, h: HandlerResult :: r.queue != [] && h.Throws? ==>
      KeepsRecurring(cfg, q, r, Advance(f, r, h))
    requires forall k :: outcomes(k).Throws?
    ensures KeepsRecurring(cfg, q, s, Iterate(f, s, outcomes, turns))
    decreases turns
  {
    if turns != 0 && s.queue != [] && !s.escaped {
      var u := Advance(f, s, outcomes(s.deliveries));
      assert KeepsRecurring(cfg, q, s, u);
      assert u.escaped ==> Iterate(f, u, outcomes, turns - 1) == u;
      IterationKeepsRecurring(cfg, q, f, u, outcomes, turns - 1);
    }
  }

  // While no handler succeeds, a queue with such a message does not drain before an exception
  // ends the loop.
  lemma RecurringNeverDrains(cfg: Config, q: string, s: Run, outcomes: nat -> HandlerResult, turns: nat)
    requires !NoneRecurs(cfg, q, s.queue) && forall k :: outcomes(k).Throws?
    ensures var t := RunOf(cfg, q, s, outcomes, turns); t.escaped || t.queue != []
  {
    forall r: Run, h: HandlerResult | r.queue != [] && h.Throws?
      ensures KeepsRecurring(cfg, q, r, Advance(Dispatching(cfg, q), r, h))
    {
      if Recurs(cfg, q, r.queue[0].body) { RecursAgain(cfg, q, r.queue[0], h); }
      if !NoneRecurs(cfg, q, r.queue) {
        RecurringStays(cfg, q, r, TurnOf(cfg, q, r.queue[0], h), Advance(Dispatching(cfg, q), r, h));
      }
    }
    IterationKeepsRecurring(cfg, q, Dispatching(cfg, q), s, outcomes, turns);
  }

  // The loop empties the queue, and no exception ends it.
  ghost predicate Drains(cfg: Config, q: string, queue: seq<Item>, outcomes: nat -> HandlerResult) {
    exists turns: nat ::
      RunOf(cfg, q, StartOf(queue), outcomes, turns).queue == []
      && !RunOf(cfg, q, StartOf(queue), outcomes, turns).escaped
  }

  // A queue drains whatever the handlers do exactly when it holds no message that is released
  // verbatim, none that is buried where it came from, and none whose null attempts a turn can come
  // to read. Without the last two it drains under some handlers exactly when it does under all.
  lemma DrainsIff(cfg: Config, q: string, queue: seq<Item>)
    ensures (forall outcomes :: Drains(cfg, q, queue, outcomes)) <==>
      NoneVerbatim(cfg, queue) && NoneReburied(cfg, q, queue) && AllCountable(cfg, queue)
    ensures NoneReburied(cfg, q, queue) && AllCountable(cfg, queue) ==>
      forall outcomes :: Drains(cfg, q, queue, outcomes) <==> NoneVerbatim(cfg, queue)
  {
    forall outcomes | NoneRecurs(cfg, q, queue) ensures Drains(cfg, q, queue, outcomes) {
      RunDrains(cfg, q, queue, outcomes, TotalBudget(cfg, queue));
    }
    forall outcomes | !NoneVerbatim(cfg, queue) ensures !Drains(cfg, q, queue, outcomes) {
      forall turns: nat ensures RunOf(cfg, q, StartOf(queue), outcomes, turns).queue != [] {
        VerbatimNeverDrains(cfg, q, StartOf(queue), outcomes, turns);
      }
    }
    if !NoneRecurs(cfg, q, queue) {
      var failing: nat -> HandlerResult := _ => Throws(false);
      forall turns: nat
        ensures var t := RunOf(cfg, q, StartOf(queue), failing, turns); t.escaped || t.queue != []
      {
        RecurringNeverDrains(cfg, q, StartOf(queue), failing, turns);
      }
      assert !Drains(cfg, q, queue, failing);
    }
  }

  lemma VerbatimComesBack(cfg: Config, q: string, item: Item, h: HandlerResult)
    requires ReleasedVerbatim(cfg, item.body)
    ensures var w := WriteOf(OutcomeOf(cfg, q, item, h).trace);
      && w.Some? && w.value.queue == q && ReleasedVerbatim(cfg, BodyOf(w.value.payload))
      && BodyOf(w.value.payload) == Enveloped(item.body.env, false)
    ensures !OutcomeOf(cfg, q, item, h).raised
  {
    assert PlanOf(cfg, Memory(), Received(q, item)) == GiveBack(Raw(item.body));
  }

  ghost predicate AllRecur(cfg: Config, q: string, queue: seq<Item>) {
    forall i :: 0 <= i < |queue| ==> Recurs(cfg, q, queue[i].body)
  }

  predicate NoneMapped(cfg: Config, queue: seq<Item>) {
    forall i :: 0 <= i < |queue| ==> !Mapped(cfg, queue[i].body)
  }

  // A turn that keeps the number of messages, or raises over null attempts.
  ghost predicate Stays(cfg: Config, q: string, s: Run, t: Run) {
    && (!t.escaped ==> |t.queue| == |s.queue| && AllRecur(cfg, q, t.queue))
    && (!t.escaped && NoneMapped(cfg, s.queue) ==> NoneMapped(cfg, t.queue))
    && (AllCountable(cfg, s.queue) ==> !t.escaped && AllCountable(cfg, t.queue))
  }

  ghost predicate Staying(cfg: Config, q: string, f: Dispatcher) {
    forall r: Run, h: HandlerResult ::
      r.queue != [] && AllRecur(cfg, q, r.queue) && (h.Throws? || NoneMapped(cfg, r.queue)) ==>
        Stays(cfg, q, r, Advance(f, r, h))
  }

  lemma RecurringTurnStays(cfg: Config, q: string, s: Run, turn: Turn, t: Run)
    requires s.queue != [] && AllRecur(cfg, q, s.queue) && ComesBack(cfg, q, s.queue[0], turn)
    requires t.queue == s.queue[1..] + turn.back && t.escaped == turn.raised
    ensures Stays(cfg, q, s, t)
  {
  }

  lemma {:induction false} IterationStays(cfg: Config, q: string, f: Dispatcher, s: Run,
                                          outcomes: nat -> HandlerResult, turns: nat)
    requires Staying(cfg, q, f) && AllRecur(cfg, q, s.queue) && !s.escaped
    requires (forall k :: outcomes(k).Throws?) || NoneMapped(cfg, s.queue)
    ensures Stays(cfg, q, s, Iterate(f, s, outcomes, turns))
    decreases turns
  {
    if turns != 0 && s.queue != [] {
      var u := Advance(f, s, outcomes(s.deliveries));
      assert Stays(cfg, q, s, u);
      if u.escaped {
        assert Iterate(f, u, outcomes, turns - 1) == u;
      } else {
        IterationStays(cfg, q, f, u, outcomes, turns - 1);
      }
    }
  }

  // When every message is released verbatim or buried where it came from, which an empty suffix
  // makes of the burials, none ever leaves, unless null attempts end the loop: not while the
  // handlers fail, and whatever they do when no message has one.
  lemma SelfBurialNeverDrains(cfg: Config, q: string, s: Run, outcomes: nat -> HandlerResult, turns: nat)
    requires AllRecur(cfg, q, s.queue) && !s.escaped
    requires (forall k :: outcomes(k).Throws?) || NoneMapped(cfg, s.queue)
    ensures var t := RunOf(cfg, q, s, outcomes, turns);
      (!t.escaped ==> |t.queue| == |s.queue|) && (AllCountable(cfg, s.queue) ==> !t.escaped)
  {
    forall r: Run, h: HandlerResult
      | r.queue != [] && AllRecur(cfg, q, r.queue) && (h.Throws? || NoneMapped(cfg, r.queue))
      ensures Stays(cfg, q, r, Advance(Dispatching(cfg, q), r, h))
    {
      RecursAgain(cfg, q, r.queue[0], h);
      RecurringTurnStays(cfg, q, r, TurnOf(cfg, q, r.queue[0], h), Advance(Dispatching(cfg, q), r, h));
    }
    IterationStays(cfg, q, Dispatching(cfg, q), s, outcomes, turns);
  }

  // Null attempts: the turn that reads them ends the loop, at whatever limit.
  lemma NullEndsTheLoop(cfg: Config, q: string, s: Run, outcomes: nat -> HandlerResult, turns: nat)
    requires s.queue != [] && !s.escaped && turns > 0
    requires Raises(cfg, s.queue[0].body, outcomes(s.deliveries))
    ensures var t := RunOf(cfg, q, s, outcomes, turns);
      && t.escaped && t.queue == s.queue[1..] && t.deliveries == s.deliveries + 1
      && t.ended == s.ended + [(s.queue[0].tag, Raised)]
  {
    RunUnfolds(cfg, q, s, outcomes, turns);
    var u := Step(cfg, q, s, outcomes(s.deliveries));
    assert u.escaped && u.queue == s.queue[1..];
    RunUnfolds(cfg, q, u, outcomes, turns - 1);
  }

  // The dead-letter queue is the work queue when it is named so, or nothing is named and the
  // suffix is explicitly empty.
  lemma EmptySuffixIsSelfBurial(cfg: Config, q: string)
    ensures Target(cfg, Memory(), q) == q <==>
      if cfg.deadLetterQueue != "" then cfg.deadLetterQueue == q else cfg.suffix == Some("")
  {
    var suffix := if cfg.suffix.None? then ".dlq" else cfg.suffix.value;
    assert |q + suffix| == |q| + |suffix|;
    if suffix == "" { assert q + suffix == q; }
  }
}
