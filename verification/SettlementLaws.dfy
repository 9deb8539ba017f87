/**
  What every dispatch keeps, for every configuration, every set of capabilities, every delivery
  and every way the calls may end.
*/
module SettlementLaws {
  import opened Helpers
  import opened Settlement
  import D = Destinations

  // ---- Reading a trace --------------------------------------------------------------------

  // A call that took the delivery off the queue, or tried to acknowledge it.
  predicate Settles(e: Effect) {
    match e
    case Acked(_) => true
    case Redelivered(_, ok) => ok
    case DeadLettered(_, _, reply) => reply != Failed
    case _ => false
  }

  // A dead-letter call that returned.
  predicate Buries(caps: Capabilities, e: Effect) {
    match e
    case Wrote(purpose, _, _, ok) => purpose.Grave? && ok
    case DeadLettered(_, _, reply) => reply != Failed
    case LeftNative(_, reply) => caps.native.ReportingNative? && reply.Done?
    case _ => false
  }

  // One that returned without a dead-letter: the reservation had lapsed.
  predicate Lapsed(e: Effect) {
    e.DeadLettered? && e.reply.DoneElsewhere?
  }

  predicate CallFails(e: Effect) {
    match e
    case Wrote(_, _, _, ok) => !ok
    case Redelivered(_, ok) => !ok
    case DeadLettered(_, _, reply) => reply == Failed
    case _ => false
  }

  // What an acknowledgement may follow: a handler that returned or a confirmed write.
  predicate Justifies(e: Effect) {
    match e
    case Invoked(_, result) => result.Returns?
    case Wrote(_, _, _, ok) => ok
    case _ => false
  }

  // An acknowledgement that gives the message up: nothing handled it and nothing was written.
  ghost predicate GivesUp(t: Trace) {
    exists i :: 0 <= i < |t| && t[i].Acked? && !(i > 0 && Justifies(t[i - 1]))
  }

  function BurialQueue(e: Effect): string
  {
    match e
    case Wrote(_, queue, _, _) => queue
    case DeadLettered(queue, _, _) => queue
    case _ => ""
  }

  // ---- The laws of a trace -----------------------------------------------------------------

  ghost predicate SettledOnce(t: Trace) {
    forall i, j :: 0 <= i < |t| && 0 <= j < |t| && Settles(t[i]) && Settles(t[j]) ==> i == j
  }

  // The observer hears of every dead-letter call that returned once, after it and under its
  // queue, and of nothing else.
  ghost predicate ObservedExactly(cfg: Config, caps: Capabilities, t: Trace) {
    && (forall i, j :: 0 <= i < |t| && 0 <= j < |t| && Buries(caps, t[i]) && Buries(caps, t[j]) ==> i == j)
    && (forall i, j :: 0 <= i < |t| && 0 <= j < |t| && t[i].Observed? && t[j].Observed? ==> i == j)
    && (forall i :: 0 <= i < |t| && t[i].Observed? ==> cfg.observed && BuriedBefore(caps, t, i))
    && (forall j :: 0 <= j < |t| && Buries(caps, t[j]) && cfg.observed ==> HeardAfter(t, j))
  }

  ghost predicate BuriedBefore(caps: Capabilities, t: Trace, i: nat)
    requires i < |t| && t[i].Observed?
  {
    exists j :: 0 <= j < i && Buries(caps, t[j]) && BurialQueue(t[j]) == t[i].deadLetterQueue
  }

  ghost predicate HeardAfter(t: Trace, j: nat)
    requires j < |t|
  {
    exists i :: j < i < |t| && t[i].Observed? && t[i].deadLetterQueue == BurialQueue(t[j])
  }

  ghost predicate Lawful(cfg: Config, caps: Capabilities, t: Trace) {
    SettledOnce(t) && ObservedExactly(cfg, caps, t)
  }

  // An effect that neither settles nor buries may come first.
  lemma LawfulAfter(cfg: Config, caps: Capabilities, e: Effect, t: Trace)
    requires Lawful(cfg, caps, t) && !Settles(e) && !Buries(caps, e) && !e.Observed?
    ensures Lawful(cfg, caps, [e] + t)
  {
    var u := [e] + t;
    assert forall i :: 1 <= i < |u| ==> u[i] == t[i - 1];
    forall i | 0 <= i < |u| && u[i].Observed? ensures cfg.observed && BuriedBefore(caps, u, i) {
      var j :| 0 <= j < i - 1 && Buries(caps, t[j]) && BurialQueue(t[j]) == t[i - 1].deadLetterQueue;
      assert u[j + 1] == t[j];
    }
    forall j | 0 <= j < |u| && Buries(caps, u[j]) && cfg.observed ensures HeardAfter(u, j) {
      var i :| j - 1 < i < |t| && t[i].Observed? && t[i].deadLetterQueue == BurialQueue(t[j - 1]);
      assert u[i + 1] == t[i];
    }
  }

  // A dead-letter write that raised has settled nothing and told nobody. One that returned has
  // settled the delivery exactly once and, on a transport without a dead-letter call of its own,
  // only after the record was confirmed in the dead-letter queue.
  lemma BurialSettlesOnce(cfg: Config, caps: Capabilities, m: Delivery, payload: Payload, source: string,
                          reason: string,
                          o: Oracle, n: nat)
    ensures var t := BuryTrace(cfg, caps, m, payload, source, reason, o, n);
      && SettledOnce(t) && (Unsettled(t) <==> o(n) == Failed)
      && (o(n) == Failed ==> forall i :: 0 <= i < |t| ==> !t[i].Observed?)
      && forall i :: 0 <= i < |t| && t[i].Acked? ==>
           i > 0 && t[i - 1] == Wrote(Grave, Target(cfg, caps, m.queue), payload, true)
  {
    var t := BuryTrace(cfg, caps, m, payload, source, reason, o, n);
    if o(n) != Failed { assert Settles(t[if caps.writesDeadLetters then 0 else 1]); }
  }

  lemma BuryIsLawful(cfg: Config, caps: Capabilities, m: Delivery, payload: Payload, source: string, reason: string,
                     o: Oracle, n: nat)
    ensures Lawful(cfg, caps, BuryTrace(cfg, caps, m, payload, source, reason, o, n))
  {
    var t := BuryTrace(cfg, caps, m, payload, source, reason, o, n);
    BurialSettlesOnce(cfg, caps, m, payload, source, reason, o, n);
    if o(n) != Failed && cfg.observed { assert t[|t| - 1].Observed? && Buries(caps, t[0]); }
  }

  lemma GiveBackIsLawful(cfg: Config, caps: Capabilities, m: Delivery, payload: Payload, o: Oracle, n: nat)
    ensures Lawful(cfg, caps, GiveBackTrace(caps, m, payload, o, n))
  {
  }

  lemma NativeIsLawful(cfg: Config, caps: Capabilities, m: Delivery, reason: string, o: Oracle, n: nat)
    ensures Lawful(cfg, caps, NativeTrace(cfg, caps, m, reason, o, n))
  {
    var t := NativeTrace(cfg, caps, m, reason, o, n);
    if |t| == 2 { assert t[1].Observed? && Buries(caps, t[0]); }
  }

  lemma FailureIsLawful(cfg: Config, caps: Capabilities, m: Delivery, e: Envelope, u: bool, o: Oracle, n: nat)
    ensures Lawful(cfg, caps, FailureOutcome(cfg, caps, m, e, u, o, n).trace)
  {
    match AfterFailure(cfg, m, e, u)
    case GiveBack(payload) => GiveBackIsLawful(cfg, caps, m, payload, o, n);
    case Bury(payload, source, reason, _) => BuryIsLawful(cfg, caps, m, payload, source, reason, o, n);
    case _ =>
  }

  // For every delivery: at most one call settles it, and the dead-letter observer hears of each
  // dead-letter call that returned exactly once and of nothing else.
  lemma DispatchIsLawful(cfg: Config, caps: Capabilities, m: Delivery, h: HandlerResult, o: Oracle, n: nat)
    ensures Lawful(cfg, caps, DispatchOutcome(cfg, caps, m, h, o, n).trace)
  {
    var p := PlanOf(cfg, caps, m);
    match p
    case Drop =>
    case Stuck =>
    case LeaveNative(reason) => NativeIsLawful(cfg, caps, m, reason, o, n);
    case GiveBack(payload) => GiveBackIsLawful(cfg, caps, m, payload, o, n);
    case Handle(urn, e) =>
      if h.Throws? { FailureIsLawful(cfg, caps, m, e, h.unknownUrn, o, n + 1); }
      LawfulAfter(cfg, caps, Invoked(urn, h),
        if h.Returns? then AckTrace(o, n + 1) else FailureOutcome(cfg, caps, m, e, h.unknownUrn, o, n + 1).trace);
    case Bury(payload, source, reason, onFailure) =>
      BuryIsLawful(cfg, caps, m, payload, source, reason, o, n);
      if o(n) == Failed { FailedBurialIsLawful(cfg, caps, m, p, h, o, n); }
  }

  lemma FailedBurialIsLawful(cfg: Config, caps: Capabilities, m: Delivery, p: Plan, h: HandlerResult, o: Oracle, n: nat)
    requires p == PlanOf(cfg, caps, m) && p.Bury? && o(n) == Failed
    ensures Lawful(cfg, caps, DispatchOutcome(cfg, caps, m, h, o, n).trace)
  {
    var first := BuryTrace(cfg, caps, m, p.payload, p.source, p.reason, o, n);
    var rest := match p.onFailure
      case ThenAbandon => AbandonTrace(caps, o, n + 1)
      case ThenRewind => RewindTrace(caps, o, n + 1)
      case ThenRaise => []
      case ThenRetry(e) => FailureOutcome(cfg, caps, m, e, false, o, n + 1).trace;
    if p.onFailure.ThenRetry? { FailureIsLawful(cfg, caps, m, p.onFailure.env, false, o, n + 1); }
    LawfulAfter(cfg, caps, first[0], rest);
    assert DispatchOutcome(cfg, caps, m, h, o, n).trace == [first[0]] + rest;
  }

  // The observer hears of dead-letters only: what it hears of was written.
  ghost predicate HearsOfDeadLetters(caps: Capabilities, t: Trace) {
    forall i :: 0 <= i < |t| && t[i].Observed? ==> exists j :: 0 <= j < i && Buries(caps, t[j]) && !Lapsed(t[j])
  }

  // An observer is told of nothing but dead-letters, however the calls end, exactly on a transport
  // without a dead-letter call of its own: such a call returns without writing anything when the
  // reservation has lapsed, and the observer is told of a dead-letter all the same.
  lemma HearsOfDeadLettersIff(cfg: Config, caps: Capabilities)
    requires cfg.observed
    ensures (forall m, h, o, n: nat :: HearsOfDeadLetters(caps, DispatchOutcome(cfg, caps, m, h, o, n).trace))
       <==> !caps.writesDeadLetters
  {
    if caps.writesDeadLetters {
      var m := Delivery(Garbled(Empty, 0), "q", NonNumeric, 0);
      var t := DispatchOutcome(cfg, caps, m, Returns, k => DoneElsewhere, 0).trace;
      DispatchIsLawful(cfg, caps, m, Returns, k => DoneElsewhere, 0);
      assert Lapsed(t[0]);
      LawfulHearing(cfg, caps, t);
    } else {
      forall m, h, o, n: nat ensures HearsOfDeadLetters(caps, DispatchOutcome(cfg, caps, m, h, o, n).trace) {
        DispatchIsLawful(cfg, caps, m, h, o, n);
        NoneLapses(cfg, caps, m, h, o, n);
        LawfulHearing(cfg, caps, DispatchOutcome(cfg, caps, m, h, o, n).trace);
      }
    }
  }

  ghost predicate NoneLapsed(t: Trace) {
    forall i :: 0 <= i < |t| ==> !Lapsed(t[i])
  }

  lemma NoneLapsedInBoth(t: Trace, u: Trace)
    requires NoneLapsed(t) && NoneLapsed(u)
    ensures NoneLapsed(t + u)
  {
  }

  lemma FirstNoneLapses(cfg: Config, caps: Capabilities, m: Delivery, p: Plan, o: Oracle, n: nat)
    requires !caps.writesDeadLetters && !p.Handle?
    ensures NoneLapsed(FirstTrace(cfg, caps, m, p, o, n))
  {
  }

  lemma FailureNoneLapses(cfg: Config, caps: Capabilities, m: Delivery, e: Envelope, u: bool, o: Oracle, n: nat)
    requires !caps.writesDeadLetters
    ensures NoneLapsed(FailureOutcome(cfg, caps, m, e, u, o, n).trace)
  {
    FirstNoneLapses(cfg, caps, m, AfterFailure(cfg, m, e, u), o, n);
  }

  lemma NoneLapses(cfg: Config, caps: Capabilities, m: Delivery, h: HandlerResult, o: Oracle, n: nat)
    requires !caps.writesDeadLetters
    ensures NoneLapsed(DispatchOutcome(cfg, caps, m, h, o, n).trace)
  {
    var p := PlanOf(cfg, caps, m);
    if p.Handle? {
      var e, u := p.env, h.Throws? && h.unknownUrn;
      FailureNoneLapses(cfg, caps, m, e, u, o, n + 1);
      NoneLapsedInBoth([Invoked(p.urn, h)],
        if h.Returns? then AckTrace(o, n + 1) else FailureOutcome(cfg, caps, m, e, u, o, n + 1).trace);
    } else {
      FirstNoneLapses(cfg, caps, m, p, o, n);
      if p.Bury? && o(n) == Failed { FailedBurialNoneLapses(cfg, caps, m, p, h, o, n); }
    }
  }

  lemma FailedBurialNoneLapses(cfg: Config, caps: Capabilities, m: Delivery, p: Plan, h: HandlerResult, o: Oracle,
                               n: nat)
    requires p == PlanOf(cfg, caps, m) && p.Bury? && o(n) == Failed && !caps.writesDeadLetters
    ensures NoneLapsed(DispatchOutcome(cfg, caps, m, h, o, n).trace)
  {
    FirstNoneLapses(cfg, caps, m, p, o, n);
    if p.onFailure.ThenRetry? { FailureNoneLapses(cfg, caps, m, p.onFailure.env, false, o, n + 1); }
    var rest := match p.onFailure
      case ThenAbandon => AbandonTrace(caps, o, n + 1)
      case ThenRewind => RewindTrace(caps, o, n + 1)
      case ThenRaise => []
      case ThenRetry(e) => FailureOutcome(cfg, caps, m, e, false, o, n + 1).trace;
    NoneLapsedInBoth(BuryTrace(cfg, caps, m, p.payload, p.source, p.reason, o, n), rest);
  }

  lemma LawfulHearing(cfg: Config, caps: Capabilities, t: Trace)
    requires cfg.observed && Lawful(cfg, caps, t)
    ensures HearsOfDeadLetters(caps, t) <==> NoneLapsed(t)
  {
    if NoneLapsed(t) {
      forall i | 0 <= i < |t| && t[i].Observed? ensures exists j :: 0 <= j < i && Buries(caps, t[j]) && !Lapsed(t[j]) {
        assert BuriedBefore(caps, t, i);
      }
    } else {
      var j :| 0 <= j < |t| && Lapsed(t[j]);
      assert Buries(caps, t[j]) && HeardAfter(t, j);
      var i :| j < i < |t| && t[i].Observed?;
      assert forall k :: 0 <= k < |t| && Buries(caps, t[k]) ==> k == j;
    }
  }

  // A handler that returns is followed by the ack and by nothing else.
  lemma SuccessIsAcked(cfg: Config, caps: Capabilities, m: Delivery, o: Oracle, n: nat)
    ensures var t := DispatchOutcome(cfg, caps, m, Returns, o, n).trace;
      Handled(t) ==> |t| == 2 && t[1].Acked?
  {
    HandledIff(cfg, caps, m, Returns, o, n);
  }

  // ---- Giving up -------------------------------------------------------------------------------

  // The retries of the message are used up and no dead-letter queue takes it.
  predicate Exhausted(cfg: Config, e: Envelope) {
    !NullAttempts(e) && AttemptsOf(e) + 1 >= cfg.maxAttempts && !cfg.deadLetter
  }

  lemma GivesUpAfter(e: Effect, t: Trace)
    requires t == [] || !t[0].Acked?
    requires !e.Acked?
    ensures GivesUp([e] + t) <==> GivesUp(t)
  {
    var u := [e] + t;
    assert forall i :: 1 <= i < |u| ==> u[i] == t[i - 1];
    if GivesUp(t) {
      var i :| 0 <= i < |t| && t[i].Acked? && !(i > 0 && Justifies(t[i - 1]));
      assert u[i + 1] == t[i] && u[i] == t[i - 1];
    }
    if GivesUp(u) {
      var i :| 0 <= i < |u| && u[i].Acked? && !(i > 0 && Justifies(u[i - 1]));
      assert t[i - 1] == u[i] && i > 1 && t[i - 2] == u[i - 1];
    }
  }

  lemma FirstAttemptGivesUpIff(cfg: Config, caps: Capabilities, m: Delivery, p: Plan, o: Oracle, n: nat)
    requires !p.Handle?
    ensures GivesUp(FirstTrace(cfg, caps, m, p, o, n)) <==> p.Drop?
  {
    var t := FirstTrace(cfg, caps, m, p, o, n);
    if p.Drop? { assert t[0].Acked?; }
  }

  lemma FailureGivesUpIff(cfg: Config, caps: Capabilities, m: Delivery, e: Envelope, u: bool, o: Oracle, n: nat)
    ensures var t := FailureOutcome(cfg, caps, m, e, u, o, n).trace;
      && (GivesUp(t) <==> Exhausted(cfg, e)) && (t == [] ==> NullAttempts(e))
      && (t != [] ==> (t[0].Acked? <==> Exhausted(cfg, e)))
  {
    var p := AfterFailure(cfg, m, e, u);
    FirstAttemptGivesUpIff(cfg, caps, m, p, o, n);
    assert FailureOutcome(cfg, caps, m, e, u, o, n).trace == FirstTrace(cfg, caps, m, p, o, n);
  }

  // A message is given up exactly in the drops the rules list.
  lemma GivesUpIff(cfg: Config, caps: Capabilities, m: Delivery, h: HandlerResult, o: Oracle, n: nat)
    ensures GivesUp(DispatchOutcome(cfg, caps, m, h, o, n).trace) <==> D.Drops(cfg, caps, m, h, o, n)
  {
    var p := PlanOf(cfg, caps, m);
    if D.Ordinary(caps, m) && D.Mapped(cfg, m) {
      D.HandlingFollows(cfg, caps, m, h, o, n);
      if h.Throws? { HandledGivesUpIff(cfg, caps, m, p.urn, p.env, h, o, n); }
    } else if p.Bury? && o(n) == Failed {
      D.FailedBurialFollows(cfg, caps, m, h, o, n);
      BuriedGivesUpIff(cfg, caps, m, p, h, o, n);
    } else {
      D.PlanFollows(cfg, caps, m, h, o, n);
      FirstAttemptGivesUpIff(cfg, caps, m, p, o, n);
    }
  }

  lemma HandledGivesUpIff(cfg: Config, caps: Capabilities, m: Delivery, urn: string, e: Envelope, h: HandlerResult,
                          o: Oracle, n: nat)
    requires h.Throws?
    ensures GivesUp([Invoked(urn, h)] + FailureOutcome(cfg, caps, m, e, h.unknownUrn, o, n + 1).trace)
       <==> Exhausted(cfg, e)
  {
    var t := FailureOutcome(cfg, caps, m, e, h.unknownUrn, o, n + 1).trace;
    FailureGivesUpIff(cfg, caps, m, e, h.unknownUrn, o, n + 1);
    if t != [] && t[0].Acked? {
      var u := [Invoked(urn, h)] + t;
      assert u[1].Acked? && !Justifies(u[0]);
    } else {
      GivesUpAfter(Invoked(urn, h), t);
    }
  }

  lemma BuriedGivesUpIff(cfg: Config, caps: Capabilities, m: Delivery, p: Plan, h: HandlerResult, o: Oracle, n: nat)
    requires p == PlanOf(cfg, caps, m) && p.Bury? && o(n) == Failed
    ensures GivesUp(DispatchOutcome(cfg, caps, m, h, o, n).trace)
       <==> p.onFailure.ThenRetry? && Exhausted(cfg, p.onFailure.env)
  {
    var first := BuryTrace(cfg, caps, m, p.payload, p.source, p.reason, o, n);
    if p.onFailure.ThenRetry? {
      var t := FailureOutcome(cfg, caps, m, p.onFailure.env, false, o, n + 1).trace;
      FailureGivesUpIff(cfg, caps, m, p.onFailure.env, false, o, n + 1);
      assert first == [first[0]];
      var u := first + t;
      assert u[0] == first[0] && !Justifies(u[0]) && u == [first[0]] + t;
      if t != [] && t[0].Acked? { assert u[1].Acked?; } else { GivesUpAfter(first[0], t); }
    }
  }

  // With dead-lettering on and another strategy than `delete`, no delivery is ever given up,
  // however its calls end; with any other configuration some delivery is.
  lemma NothingIsDroppedIff(cfg: Config, caps: Capabilities)
    ensures (forall m, h, o, n: nat :: !GivesUp(DispatchOutcome(cfg, caps, m, h, o, n).trace))
       <==> cfg.deadLetter && !cfg.strategy.Delete?
  {
    if cfg.deadLetter && !cfg.strategy.Delete? {
      forall m, h, o, n: nat ensures !GivesUp(DispatchOutcome(cfg, caps, m, h, o, n).trace) {
        GivesUpIff(cfg, caps, m, h, o, n);
      }
    } else {
      var m := if cfg.strategy.DeadLetter? then SpentMessage(cfg) else SpentRecord(cfg);
      GivesUpIff(cfg, caps, m, Throws(false), k => Failed, 0);
      assert GivesUp(DispatchOutcome(cfg, caps, m, Throws(false), k => Failed, 0).trace);
    }
  }

  // A poison record of Kafka that has used its attempts up.
  function SpentRecord(cfg: Config): Delivery {
    Delivery(Garbled(Empty, 0), "q", PoisonRecord(cfg.maxAttempts), 0)
  }

  // An ordinary message that has used its attempts up.
  function SpentMessage(cfg: Config): Delivery {
    Delivery(Enveloped(Envelope("u", Some(cfg.maxAttempts), "", 0), false), "q", NoRoute, 0)
  }

  // ---- Who is handled -----------------------------------------------------------------------------

  ghost predicate Handled(t: Trace) {
    exists i :: 0 <= i < |t| && t[i].Invoked?
  }

  lemma NoneHandled(cfg: Config, caps: Capabilities, m: Delivery, p: Plan, o: Oracle, n: nat)
    requires !p.Handle?
    ensures !Handled(FirstTrace(cfg, caps, m, p, o, n))
  {
  }

  // A handler runs exactly for a delivery that is neither gated nor poison and whose routing URN
  // is mapped; it is the handler of that URN, called first and once.
  lemma HandledIff(cfg: Config, caps: Capabilities, m: Delivery, h: HandlerResult, o: Oracle, n: nat)
    ensures var t := DispatchOutcome(cfg, caps, m, h, o, n).trace;
      && (Handled(t) <==> !Reserved(m.route) && !FoundPoison(caps, m) && Routing(m) != "" && Routing(m) in cfg.handlers)
      && (forall i :: 0 <= i < |t| && t[i].Invoked? ==> i == 0 && t[i].urn == Routing(m))
  {
    var p := PlanOf(cfg, caps, m);
    var t := DispatchOutcome(cfg, caps, m, h, o, n).trace;
    if p.Handle? {
      assert t[0].Invoked?;
      if h.Throws? {
        var q := AfterFailure(cfg, m, p.env, h.unknownUrn);
        NoneHandled(cfg, caps, m, q, o, n + 1);
        assert t == [t[0]] + FirstTrace(cfg, caps, m, q, o, n + 1);
      }
    } else {
      NoneHandled(cfg, caps, m, p, o, n);
      if p.Bury? && p.onFailure.ThenRetry? {
        NoneHandled(cfg, caps, m, AfterFailure(cfg, m, p.onFailure.env, false), o, n + 1);
      }
    }
  }

  // ---- Left unsettled ---------------------------------------------------------------------------------

  ghost predicate Unsettled(t: Trace) {
    forall i :: 0 <= i < |t| ==> !Settles(t[i])
  }

  predicate TakesBack(e: Effect) {
    e.Rewound? || e.Abandoned?
  }

  ghost predicate SomeCallFails(t: Trace) {
    exists i :: 0 <= i < |t| && CallFails(t[i])
  }

  // A delivery that was settled is never taken back as well; one that was not is left to the
  // broker's own mechanism, ended the loop, which only a failed call or attempts that are null
  // (`stuck`) can do, or had a call fail, and was taken back where the transport can.
  ghost predicate EndsWell(caps: Capabilities, d: Outcome, stuck: bool) {
    var t := d.trace;
    && (forall i :: 0 <= i < |t| && TakesBack(t[i]) ==> Unsettled(t) && i == |t| - 1 && !d.raised)
    && (d.raised ==> Unsettled(t) && (stuck || (t != [] && CallFails(t[|t| - 1]))))
    && (Unsettled(t) ==>
        || d.raised || LeftToBroker(t)
        || (SomeCallFails(t) && (caps.rewinds ==> t[|t| - 1].Rewound?)))
  }

  ghost predicate LeftToBroker(t: Trace) {
    exists i :: 0 <= i < |t| && t[i].LeftNative?
  }

  lemma EndsWellAfter(caps: Capabilities, e: Effect, d: Outcome, stuck: bool)
    requires EndsWell(caps, d, stuck) && !Settles(e) && !TakesBack(e)
    ensures EndsWell(caps, Outcome([e] + d.trace, d.raised), stuck)
  {
    var u := [e] + d.trace;
    assert forall i :: 1 <= i < |u| ==> u[i] == d.trace[i - 1];
    if Unsettled(u) {
      assert Unsettled(d.trace) by { assert forall i :: 0 <= i < |d.trace| ==> d.trace[i] == u[i + 1]; }
      if LeftToBroker(d.trace) {
        var i :| 0 <= i < |d.trace| && d.trace[i].LeftNative?;
        assert u[i + 1].LeftNative?;
      }
      if SomeCallFails(d.trace) {
        var i :| 0 <= i < |d.trace| && CallFails(d.trace[i]);
        assert u[i + 1] == d.trace[i];
      }
    }
  }

  lemma FirstAttemptEndsWell(cfg: Config, caps: Capabilities, m: Delivery, p: Plan, o: Oracle, n: nat)
    requires !p.Handle?
    ensures var d := Outcome(FirstTrace(cfg, caps, m, p, o, n), p.Stuck? || (p.Bury? && o(n) == Failed));
      EndsWell(caps, d, p.Stuck?)
  {
    var t := FirstTrace(cfg, caps, m, p, o, n);
    if p.LeaveNative? { assert t[0].LeftNative?; }
    if p.Drop? { assert Settles(t[0]); }
    if p.Bury? && o(n) != Failed { assert Settles(t[if caps.writesDeadLetters then 0 else 1]); }
    if p.GiveBack? && o(n) != Failed { assert Settles(t[|t| - 1]); }
    if (p.GiveBack? || p.Bury?) && o(n) == Failed { assert CallFails(t[0]); }
  }

  lemma DispatchEndsWell(cfg: Config, caps: Capabilities, m: Delivery, h: HandlerResult, o: Oracle, n: nat)
    ensures EndsWell(caps, DispatchOutcome(cfg, caps, m, h, o, n), NullAttempts(Lenient(m.body)))
  {
    var p := PlanOf(cfg, caps, m);
    var d := DispatchOutcome(cfg, caps, m, h, o, n);
    if p.Handle? {
      if h.Returns? {
        assert Settles(d.trace[1]);
      } else {
        var q := AfterFailure(cfg, m, p.env, h.unknownUrn);
        FirstAttemptEndsWell(cfg, caps, m, q, o, n + 1);
        EndsWellAfter(caps, Invoked(p.urn, h), FailureOutcome(cfg, caps, m, p.env, h.unknownUrn, o, n + 1), q.Stuck?);
      }
    } else {
      FirstAttemptEndsWell(cfg, caps, m, p, o, n);
      if p.Bury? && o(n) == Failed { FailedBurialEndsWell(cfg, caps, m, p, h, o, n); }
    }
  }

  lemma FailedBurialEndsWell(cfg: Config, caps: Capabilities, m: Delivery, p: Plan, h: HandlerResult, o: Oracle, n: nat)
    requires p == PlanOf(cfg, caps, m) && p.Bury? && o(n) == Failed
    ensures EndsWell(caps, DispatchOutcome(cfg, caps, m, h, o, n), NullAttempts(Lenient(m.body)))
  {
    var first := BuryTrace(cfg, caps, m, p.payload, p.source, p.reason, o, n);
    var d := DispatchOutcome(cfg, caps, m, h, o, n);
    assert first == [first[0]] && CallFails(first[0]) && d.trace[0] == first[0];
    if p.onFailure.ThenRetry? {
      var q := AfterFailure(cfg, m, p.onFailure.env, false);
      FirstAttemptEndsWell(cfg, caps, m, q, o, n + 1);
      EndsWellAfter(caps, first[0], FailureOutcome(cfg, caps, m, p.onFailure.env, false, o, n + 1), q.Stuck?);
    }
  }

  // The delivery can take the path of a failure: its handler may throw, or it has none and the
  // strategy neither drops it nor releases it as it is.
  predicate MayFail(cfg: Config, m: Delivery) {
    (Routing(m) != "" && Routing(m) in cfg.handlers)
    || !(cfg.strategy.Delete? || (cfg.strategy.Release? && Routing(m) != ""))
  }

  // On that path an exception can leave the dispatch: the attempts are null, or it ends in a
  // dead-letter write, which may fail.
  predicate CanRaise(cfg: Config, caps: Capabilities, m: Delivery) {
    var e := Lenient(m.body);
    && !Reserved(m.route) && !FoundPoison(caps, m) && MayFail(cfg, m)
    && (NullAttempts(e) || (cfg.deadLetter && AttemptsOf(e) + 1 >= cfg.maxAttempts))
  }

  // No exception leaves the dispatch of a delivery, however its handler and its calls end, exactly
  // when it cannot by this rule, which names nothing but the delivery and the configuration.
  lemma NeverRaisesIff(cfg: Config, caps: Capabilities, m: Delivery)
    ensures (forall h, o, n: nat :: !DispatchOutcome(cfg, caps, m, h, o, n).raised) <==> !CanRaise(cfg, caps, m)
  {
    PlanEnvelope(cfg, caps, m);
    if CanRaise(cfg, caps, m) {
      assert DispatchOutcome(cfg, caps, m, Throws(false), k => Failed, 0).raised;
    } else {
      forall h, o, n: nat ensures !DispatchOutcome(cfg, caps, m, h, o, n).raised {
        NoneRaised(cfg, caps, m, h, o, n);
      }
    }
  }

  lemma NoneRaised(cfg: Config, caps: Capabilities, m: Delivery, h: HandlerResult, o: Oracle, n: nat)
    requires !CanRaise(cfg, caps, m)
    ensures !DispatchOutcome(cfg, caps, m, h, o, n).raised
  {
    PlanEnvelope(cfg, caps, m);
  }

  // ---- What is written --------------------------------------------------------------------------------

  // A write carries the body of the delivery, or its envelope with the attempts as they were or
  // one more. Only a poison body that is retried is replaced, by the bare object with its count.
  predicate Carries(caps: Capabilities, m: Delivery, p: Payload) {
    match p
    case Raw(body) => body == m.body
    case Preserved(body, _) => body == m.body
    case Encoded(e) => CarriesEnvelope(caps, m, e)
    case Annotated(e, _, source) => SameEnvelope(m, e) && source == SourceOf(Lenient(m.body), m.queue)
  }

  predicate SameEnvelope(m: Delivery, e: Envelope) {
    var was := Lenient(m.body);
    e == was || e == WithAttempts(was, AttemptsOf(was) + 1)
  }

  predicate CarriesEnvelope(caps: Capabilities, m: Delivery, e: Envelope) {
    || SameEnvelope(m, e)
    || (FoundPoison(caps, m) && e == Hollow(PoisonAttempts(m) + 1))
    || (m.route.PoisonRecord? && e == Hollow(m.route.attempts + 1))
  }

  ghost predicate WritesCarry(caps: Capabilities, m: Delivery, t: Trace) {
    forall i :: 0 <= i < |t| ==>
      match t[i]
      case Wrote(_, _, payload, _) => Carries(caps, m, payload)
      case Redelivered(payload, _) => Carries(caps, m, payload)
      case DeadLettered(_, payload, _) => Carries(caps, m, payload)
      case _ => true
  }

  lemma FirstWritesCarry(cfg: Config, caps: Capabilities, m: Delivery, p: Plan, o: Oracle, n: nat)
    requires p.GiveBack? || p.Bury? ==> Carries(caps, m, p.payload)
    requires !p.Handle?
    ensures WritesCarry(caps, m, FirstTrace(cfg, caps, m, p, o, n))
  {
  }

  lemma FailurePlanCarries(cfg: Config, caps: Capabilities, m: Delivery, e: Envelope, u: bool)
    requires CarriesEnvelope(caps, m, WithAttempts(e, AttemptsOf(e) + 1))
    requires e == Lenient(m.body) || !cfg.deadLetter
    ensures var p := AfterFailure(cfg, m, e, u); !p.Handle? && (p.GiveBack? || p.Bury? ==> Carries(caps, m, p.payload))
  {
  }

  lemma PlanCarries(cfg: Config, caps: Capabilities, m: Delivery)
    ensures var p := PlanOf(cfg, caps, m); p.GiveBack? || p.Bury? ==> Carries(caps, m, p.payload)
  {
    if FoundPoison(caps, m) && !KeepsDead(cfg) {
      FailurePlanCarries(cfg, caps, m, Hollow(PoisonAttempts(m)), true);
    } else if m.route.PoisonRecord? && !KeepsDead(cfg) {
      FailurePlanCarries(cfg, caps, m, Hollow(m.route.attempts), true);
    } else {
      FailurePlanCarries(cfg, caps, m, Lenient(m.body), true);
    }
  }

  lemma BothCarry(caps: Capabilities, m: Delivery, t: Trace, u: Trace)
    requires WritesCarry(caps, m, t) && WritesCarry(caps, m, u)
    ensures WritesCarry(caps, m, t + u)
  {
  }

  // What the runtime writes for a delivery is that delivery.
  lemma DispatchCarries(cfg: Config, caps: Capabilities, m: Delivery, h: HandlerResult, o: Oracle, n: nat)
    ensures WritesCarry(caps, m, DispatchOutcome(cfg, caps, m, h, o, n).trace)
  {
    PlanEnvelope(cfg, caps, m);
    PlanCarries(cfg, caps, m);
    var p := PlanOf(cfg, caps, m);
    if p.Handle? {
      RetryCarries(cfg, caps, m, h.Throws? && h.unknownUrn, o, n + 1);
      var t := if h.Returns? then AckTrace(o, n + 1)
               else FailureOutcome(cfg, caps, m, p.env, h.unknownUrn, o, n + 1).trace;
      BothCarry(caps, m, [Invoked(p.urn, h)], t);
    } else {
      FirstWritesCarry(cfg, caps, m, p, o, n);
      if p.Bury? && o(n) == Failed { FailedBurialCarries(cfg, caps, m, p, h, o, n); }
    }
  }

  lemma FailedBurialCarries(cfg: Config, caps: Capabilities, m: Delivery, p: Plan, h: HandlerResult, o: Oracle, n: nat)
    requires p == PlanOf(cfg, caps, m) && p.Bury? && o(n) == Failed && Carries(caps, m, p.payload)
    ensures WritesCarry(caps, m, DispatchOutcome(cfg, caps, m, h, o, n).trace)
  {
    PlanEnvelope(cfg, caps, m);
    FirstWritesCarry(cfg, caps, m, p, o, n);
    RetryCarries(cfg, caps, m, false, o, n + 1);
    var rest := match p.onFailure
      case ThenAbandon => AbandonTrace(caps, o, n + 1)
      case ThenRewind => RewindTrace(caps, o, n + 1)
      case ThenRaise => []
      case ThenRetry(e) => FailureOutcome(cfg, caps, m, e, false, o, n + 1).trace;
    BothCarry(caps, m, BuryTrace(cfg, caps, m, p.payload, p.source, p.reason, o, n), rest);
  }

  lemma PlanEnvelope(cfg: Config, caps: Capabilities, m: Delivery)
    ensures var p := PlanOf(cfg, caps, m);
      && (p.Handle? ==> p.env == Lenient(m.body))
      && (p.Bury? && p.onFailure.ThenRetry? ==> p.onFailure.env == Lenient(m.body))
  {
  }

  lemma RetryCarries(cfg: Config, caps: Capabilities, m: Delivery, u: bool, o: Oracle, n: nat)
    ensures WritesCarry(caps, m, FailureOutcome(cfg, caps, m, Lenient(m.body), u, o, n).trace)
  {
    FailurePlanCarries(cfg, caps, m, Lenient(m.body), u);
    FirstWritesCarry(cfg, caps, m, AfterFailure(cfg, m, Lenient(m.body), u), o, n);
  }

  // ---- What a burial means ---------------------------------------------------------------------
}
