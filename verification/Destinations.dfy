/**
  Where a delivery goes, read off the configuration, the capabilities, the delivery and the calls
  that fail, without the decision table of Settlement.dfy; and that the table sends it there.
*/
module Destinations {
  import opened Helpers
  import opened Settlement

  // ---- The rules ----------------------------------------------------------------------------

  // Neither refused by the transport nor poison.
  predicate Ordinary(caps: Capabilities, m: Delivery) {
    !Reserved(m.route) && !FoundPoison(caps, m)
  }

  // What can never be handled is kept when there is a dead-letter queue or the strategy is
  // `dead_letter`.
  predicate Kept(cfg: Config) {
    cfg.deadLetter || cfg.strategy == DeadLetter
  }

  predicate Mapped(cfg: Config, m: Delivery) {
    Routing(m) != "" && Routing(m) in cfg.handlers
  }

  // No handler, and the strategy neither drops it nor releases it as it is: it takes the path of a
  // failure, the strategy `dead_letter` only when its own write fails.
  predicate Unserved(cfg: Config, caps: Capabilities, m: Delivery) {
    && Ordinary(caps, m) && !Mapped(cfg, m) && !cfg.strategy.Delete?
    && !(cfg.strategy.Release? && Routing(m) != "")
  }

  predicate Fails(cfg: Config, caps: Capabilities, m: Delivery, h: HandlerResult, o: Oracle, n: nat) {
    && !NullAttempts(Lenient(m.body))
    && if Mapped(cfg, m) then Ordinary(caps, m) && h.Throws?
       else Unserved(cfg, caps, m) && (cfg.strategy.DeadLetter? ==> o(n) == Failed)
  }

  // A transport without retry tiers cannot send a poison record round again.
  predicate NoTiers(caps: Capabilities) {
    caps.emptyTiers && caps.redelivers
  }

  // Poison that is neither deleted nor kept, nor settled by the transport's own mechanism.
  predicate PoisonFails(cfg: Config, caps: Capabilities, m: Delivery) {
    && !cfg.strategy.Delete? && !Kept(cfg)
    && ((FoundPoison(caps, m) && caps.native == NoNative) || (m.route.PoisonRecord? && !NoTiers(caps)))
  }

  // It counts one more attempt, and is retried or ends.
  predicate CountsOn(cfg: Config, caps: Capabilities, m: Delivery, h: HandlerResult, o: Oracle, n: nat) {
    Fails(cfg, caps, m, h, o, n) || PoisonFails(cfg, caps, m)
  }

  function CountOf(caps: Capabilities, m: Delivery): int {
    if m.route.PoisonRecord? then m.route.attempts
    else if FoundPoison(caps, m) then PoisonAttempts(m)
    else AttemptsOf(Lenient(m.body))
  }

  predicate LastAttempt(cfg: Config, caps: Capabilities, m: Delivery) {
    CountOf(caps, m) + 1 >= cfg.maxAttempts
  }

  // Acknowledged with nothing handled and nothing written: the strategy `delete`; a gated delivery
  // with no dead-letter queue and no native mechanism; a Kafka poison record with no dead-letter
  // queue and no tiers; and the last attempt with no dead-letter queue.
  predicate Drops(cfg: Config, caps: Capabilities, m: Delivery, h: HandlerResult, o: Oracle, n: nat) {
    || (cfg.strategy.Delete? && !m.route.NonNumeric? && !(Ordinary(caps, m) && Mapped(cfg, m)))
    || (!cfg.strategy.Delete? && !Kept(cfg)
        && ((m.route.Gated? && caps.native == NoNative) || (m.route.PoisonRecord? && NoTiers(caps))))
    || (CountsOn(cfg, caps, m, h, o, n) && LastAttempt(cfg, caps, m) && !cfg.deadLetter)
  }

  // Left to the broker's own mechanism.
  predicate LeavesNative(cfg: Config, caps: Capabilities, m: Delivery) {
    (m.route.Gated? || FoundPoison(caps, m)) && !cfg.strategy.Delete? && !Kept(cfg) && caps.native != NoNative
  }

  // A dead-letter write is tried: for what can never be handled, when it is kept; for an unknown
  // URN under the strategy `dead_letter`; and after the last attempt.
  predicate TriesBurial(cfg: Config, caps: Capabilities, m: Delivery, h: HandlerResult, o: Oracle, n: nat) {
    || m.route.NonNumeric?
    || (!Ordinary(caps, m) && !cfg.strategy.Delete? && Kept(cfg))
    || (Unserved(cfg, caps, m) && cfg.strategy.DeadLetter? && !NullAttempts(Lenient(m.body)))
    || (CountsOn(cfg, caps, m, h, o, n) && LastAttempt(cfg, caps, m) && cfg.deadLetter)
  }

  predicate ReleasedAsIs(cfg: Config, caps: Capabilities, m: Delivery) {
    Ordinary(caps, m) && !Mapped(cfg, m) && cfg.strategy.Release? && Routing(m) != ""
  }

  // Its return to the queue is tried: as it is, or with one more attempt while there are some left.
  predicate TriesReturn(cfg: Config, caps: Capabilities, m: Delivery, h: HandlerResult, o: Oracle, n: nat) {
    ReleasedAsIs(cfg, caps, m) || (CountsOn(cfg, caps, m, h, o, n) && !LastAttempt(cfg, caps, m))
  }

  // ---- The table follows them -----------------------------------------------------------------

  lemma PlanFollows(cfg: Config, caps: Capabilities, m: Delivery, h: HandlerResult, o: Oracle, n: nat)
    requires !(Ordinary(caps, m) && Mapped(cfg, m)) && !(PlanOf(cfg, caps, m).Bury? && o(n) == Failed)
    ensures var p := PlanOf(cfg, caps, m);
      && !p.Handle?
      && (p.Drop? <==> Drops(cfg, caps, m, h, o, n)) && (p.LeaveNative? <==> LeavesNative(cfg, caps, m))
      && (p.Bury? <==> TriesBurial(cfg, caps, m, h, o, n)) && (p.GiveBack? <==> TriesReturn(cfg, caps, m, h, o, n))
  {
  }

  // A dead-letter write that fails leads on only under the strategy `dead_letter`.
  lemma FailedBurialFollows(cfg: Config, caps: Capabilities, m: Delivery, h: HandlerResult, o: Oracle, n: nat)
    requires PlanOf(cfg, caps, m).Bury? && o(n) == Failed
    ensures var p := PlanOf(cfg, caps, m);
      && !LeavesNative(cfg, caps, m) && TriesBurial(cfg, caps, m, h, o, n)
      && (p.onFailure.ThenAbandon? <==> Reserved(m.route))
      && (if p.onFailure.ThenRetry? then
            && p.onFailure.env == Lenient(m.body) && !Mapped(cfg, m)
            && NextFollows(cfg, caps, m, h, o, n, AfterFailure(cfg, m, p.onFailure.env, false))
          else !Drops(cfg, caps, m, h, o, n) && !TriesReturn(cfg, caps, m, h, o, n))
  {
  }

  lemma HandlingFollows(cfg: Config, caps: Capabilities, m: Delivery, h: HandlerResult, o: Oracle, n: nat)
    requires Ordinary(caps, m) && Mapped(cfg, m)
    ensures var p := PlanOf(cfg, caps, m);
      && p == Handle(Routing(m), Lenient(m.body)) && !LeavesNative(cfg, caps, m)
      && (if h.Throws? then
            && NextFollows(cfg, caps, m, h, o, n, AfterFailure(cfg, m, p.env, h.unknownUrn))
            && (TriesBurial(cfg, caps, m, h, o, n) <==> AfterFailure(cfg, m, p.env, h.unknownUrn).Bury?)
          else
            && !Drops(cfg, caps, m, h, o, n) && !TriesBurial(cfg, caps, m, h, o, n)
            && !TriesReturn(cfg, caps, m, h, o, n))
  {
  }

  ghost predicate NextFollows(cfg: Config, caps: Capabilities, m: Delivery, h: HandlerResult, o: Oracle, n: nat,
                              next: Plan) {
    && !next.LeaveNative? && !next.Handle?
    && (next.Drop? <==> Drops(cfg, caps, m, h, o, n)) && (next.GiveBack? <==> TriesReturn(cfg, caps, m, h, o, n))
  }

  // ---- And so do the calls ----------------------------------------------------------------------

  datatype Kind = ToBroker | ToGrave | ToQueue | TakenOff

  predicate IsOf(e: Effect, k: Kind) {
    match k
    case ToBroker => e.LeftNative?
    case ToGrave => (e.Wrote? && e.purpose.Grave?) || e.DeadLettered?
    case ToQueue => (e.Wrote? && e.purpose.Again?) || e.Redelivered?
    case TakenOff => e.Abandoned?
  }

  ghost predicate Calls(t: Trace, k: Kind) {
    exists i :: 0 <= i < |t| && IsOf(t[i], k)
  }

  lemma CallsInBoth(t: Trace, u: Trace, k: Kind)
    ensures Calls(t + u, k) <==> Calls(t, k) || Calls(u, k)
  {
    if Calls(t, k) {
      var i :| 0 <= i < |t| && IsOf(t[i], k);
      assert IsOf((t + u)[i], k);
    }
    if Calls(u, k) {
      var i :| 0 <= i < |u| && IsOf(u[i], k);
      assert IsOf((t + u)[|t| + i], k);
    }
  }

  predicate PlanIsOf(p: Plan, k: Kind) {
    match k
    case ToBroker => p.LeaveNative?
    case ToGrave => p.Bury?
    case ToQueue => p.GiveBack?
    case TakenOff => false
  }

  lemma FirstCalls(cfg: Config, caps: Capabilities, m: Delivery, p: Plan, o: Oracle, n: nat, k: Kind)
    requires !p.Handle?
    ensures Calls(FirstTrace(cfg, caps, m, p, o, n), k) <==> PlanIsOf(p, k)
  {
    var t := FirstTrace(cfg, caps, m, p, o, n);
    if PlanIsOf(p, k) { assert IsOf(t[0], k); }
  }

  predicate Goes(cfg: Config, caps: Capabilities, m: Delivery, h: HandlerResult, o: Oracle, n: nat, k: Kind) {
    match k
    case ToBroker => LeavesNative(cfg, caps, m)
    case ToGrave => TriesBurial(cfg, caps, m, h, o, n)
    case ToQueue => TriesReturn(cfg, caps, m, h, o, n)
    case TakenOff =>
      && Reserved(m.route) && caps.abandons && !caps.rewinds
      && TriesBurial(cfg, caps, m, h, o, n) && o(n) == Failed
  }

  // The delivery is left to the broker, a dead-letter write is tried, a return to the queue is
  // tried, and what the transport itself refused is abandoned, each exactly when the rules say so.
  lemma GoesIff(cfg: Config, caps: Capabilities, m: Delivery, h: HandlerResult, o: Oracle, n: nat, k: Kind)
    ensures Calls(DispatchOutcome(cfg, caps, m, h, o, n).trace, k) <==> Goes(cfg, caps, m, h, o, n, k)
  {
    var p := PlanOf(cfg, caps, m);
    if Ordinary(caps, m) && Mapped(cfg, m) {
      HandlingFollows(cfg, caps, m, h, o, n);
      HandlerCalls(cfg, caps, m, h, o, n, k);
    } else if p.Bury? && o(n) == Failed {
      FailedBurialFollows(cfg, caps, m, h, o, n);
      BurialCalls(cfg, caps, m, h, o, n, k);
    } else {
      PlanFollows(cfg, caps, m, h, o, n);
      FirstCalls(cfg, caps, m, p, o, n, k);
    }
  }

  lemma HandlerCalls(cfg: Config, caps: Capabilities, m: Delivery, h: HandlerResult, o: Oracle, n: nat, k: Kind)
    requires PlanOf(cfg, caps, m).Handle?
    ensures var p := PlanOf(cfg, caps, m);
      Calls(DispatchOutcome(cfg, caps, m, h, o, n).trace, k)
      <==> h.Throws? && PlanIsOf(AfterFailure(cfg, m, p.env, h.unknownUrn), k)
  {
    var p := PlanOf(cfg, caps, m);
    var rest := if h.Returns? then AckTrace(o, n + 1)
                else FailureOutcome(cfg, caps, m, p.env, h.unknownUrn, o, n + 1).trace;
    CallsInBoth([Invoked(p.urn, h)], rest, k);
    if h.Throws? { FirstCalls(cfg, caps, m, AfterFailure(cfg, m, p.env, h.unknownUrn), o, n + 1, k); }
  }

  lemma BurialCalls(cfg: Config, caps: Capabilities, m: Delivery, h: HandlerResult, o: Oracle, n: nat, k: Kind)
    requires PlanOf(cfg, caps, m).Bury? && o(n) == Failed
    ensures var p := PlanOf(cfg, caps, m);
      Calls(DispatchOutcome(cfg, caps, m, h, o, n).trace, k)
      <==>
        || k.ToGrave? || (k.TakenOff? && p.onFailure.ThenAbandon? && caps.abandons && !caps.rewinds)
        || (p.onFailure.ThenRetry? && PlanIsOf(AfterFailure(cfg, m, p.onFailure.env, false), k))
  {
    var p := PlanOf(cfg, caps, m);
    var rest := match p.onFailure
      case ThenAbandon => AbandonTrace(caps, o, n + 1)
      case ThenRewind => RewindTrace(caps, o, n + 1)
      case ThenRaise => []
      case ThenRetry(e) => FailureOutcome(cfg, caps, m, e, false, o, n + 1).trace;
    var first := BuryTrace(cfg, caps, m, p.payload, p.source, p.reason, o, n);
    CallsInBoth(first, rest, k);
    FirstCalls(cfg, caps, m, p, o, n, k);
    if p.onFailure.ThenAbandon? && caps.abandons && !caps.rewinds { assert rest[0].Abandoned?; }
    if p.onFailure.ThenRetry? {
      FirstCalls(cfg, caps, m, AfterFailure(cfg, m, p.onFailure.env, false), o, n + 1, k);
    }
  }

  // ---- What they say ------------------------------------------------------------------------------

  // The envelope of an ordinary delivery, or the bare object a retried poison body leaves behind.
  function Counted(caps: Capabilities, m: Delivery): Envelope {
    if Ordinary(caps, m) then WithAttempts(Lenient(m.body), CountOf(caps, m) + 1) else Hollow(CountOf(caps, m) + 1)
  }

  // Poison bodies are preserved with the attempts they had, what the transport refused is kept
  // byte for byte, and an ordinary message gets a block that names its source and why.
  predicate GraveFits(cfg: Config, caps: Capabilities, m: Delivery, h: HandlerResult, p: Payload) {
    var was := Lenient(m.body);
    var source := SourceOf(was, m.queue);
    if m.route.NonNumeric? then p == Preserved(m.body, 0)
    else if FoundPoison(caps, m) then p == Preserved(m.body, PoisonAttempts(m))
    else if Reserved(m.route) then p == Raw(m.body)
    else if Mapped(cfg, m) then
      h.Throws? && p == Annotated(Counted(caps, m), if h.unknownUrn then "unknown_urn" else "failed", source)
    else if cfg.strategy.DeadLetter? then
      p == Annotated(was, "unknown_urn", source) || p == Annotated(Counted(caps, m), "failed", source)
    else p == Annotated(Counted(caps, m), "unknown_urn", source)
  }

  // A release is of the bytes as they came, stripped of forbidden keys where the transport
  // publishes them anew; a retry is of the message with one more attempt.
  predicate ReturnFits(cfg: Config, caps: Capabilities, m: Delivery, p: Payload, anew: bool) {
    if !ReleasedAsIs(cfg, caps, m) then p == Encoded(Counted(caps, m))
    else if anew && m.body.Enveloped? && m.body.dirty then p == Encoded(m.body.env)
    else p == Raw(m.body)
  }

  // A raw body is reported without a reason, by the runtime and by the transport's own mechanism.
  predicate HeardFits(cfg: Config, caps: Capabilities, m: Delivery, h: HandlerResult, source: string, reason: string) {
    if !Ordinary(caps, m) then
      source == m.queue && reason == if m.route.Gated? || LeavesNative(cfg, caps, m) then "" else "poison"
    else
      && source == SourceOf(Lenient(m.body), m.queue)
      && if Mapped(cfg, m) then reason == if h.Throws? && h.unknownUrn then "unknown_urn" else "failed"
         else reason == "unknown_urn" || (reason == "failed" && cfg.strategy.DeadLetter?)
  }

  predicate Fits(cfg: Config, caps: Capabilities, m: Delivery, h: HandlerResult, e: Effect) {
    match e
    case Wrote(purpose, queue, payload, _) =>
      if purpose.Grave? then queue == Target(cfg, caps, m.queue) && GraveFits(cfg, caps, m, h, payload)
      else queue == m.queue && ReturnFits(cfg, caps, m, payload, true)
    case Redelivered(payload, _) => ReturnFits(cfg, caps, m, payload, false)
    case DeadLettered(queue, payload, _) => queue == Target(cfg, caps, m.queue) && GraveFits(cfg, caps, m, h, payload)
    case LeftNative(reason, _) => reason == if m.route.Gated? then "unsupported schema version" else "poison"
    case Observed(source, _, reason) => HeardFits(cfg, caps, m, h, source, reason)
    case Invoked(urn, result) => urn == Routing(m) && result == h
    case _ => true
  }

  ghost predicate AllFit(cfg: Config, caps: Capabilities, m: Delivery, h: HandlerResult, t: Trace) {
    forall i :: 0 <= i < |t| ==> Fits(cfg, caps, m, h, t[i])
  }

  predicate PlanFits(cfg: Config, caps: Capabilities, m: Delivery, h: HandlerResult, p: Plan) {
    match p
    case Bury(payload, source, reason, _) =>
      GraveFits(cfg, caps, m, h, payload) && HeardFits(cfg, caps, m, h, source, reason)
    case GiveBack(payload) =>
      ReturnFits(cfg, caps, m, payload, false) && ReturnFits(cfg, caps, m, Clean(payload), true)
    case LeaveNative(reason) =>
      LeavesNative(cfg, caps, m) && reason == if m.route.Gated? then "unsupported schema version" else "poison"
    case _ => true
  }

  lemma BuryFits(cfg: Config, caps: Capabilities, m: Delivery, h: HandlerResult, payload: Payload, source: string,
                 reason: string, o: Oracle, n: nat)
    requires GraveFits(cfg, caps, m, h, payload) && HeardFits(cfg, caps, m, h, source, reason)
    ensures AllFit(cfg, caps, m, h, BuryTrace(cfg, caps, m, payload, source, reason, o, n))
  {
  }

  lemma ReturnTraceFits(cfg: Config, caps: Capabilities, m: Delivery, h: HandlerResult, payload: Payload, o: Oracle,
                        n: nat)
    requires ReturnFits(cfg, caps, m, payload, false) && ReturnFits(cfg, caps, m, Clean(payload), true)
    ensures AllFit(cfg, caps, m, h, GiveBackTrace(caps, m, payload, o, n))
  {
  }

  lemma FirstFits(cfg: Config, caps: Capabilities, m: Delivery, h: HandlerResult, p: Plan, o: Oracle, n: nat)
    requires !p.Handle? && PlanFits(cfg, caps, m, h, p)
    ensures AllFit(cfg, caps, m, h, FirstTrace(cfg, caps, m, p, o, n))
  {
    match p
    case Bury(payload, source, reason, _) => BuryFits(cfg, caps, m, h, payload, source, reason, o, n);
    case GiveBack(payload) => ReturnTraceFits(cfg, caps, m, h, payload, o, n);
    case _ =>
  }

  lemma TableFits(cfg: Config, caps: Capabilities, m: Delivery, h: HandlerResult)
    ensures PlanFits(cfg, caps, m, h, PlanOf(cfg, caps, m))
  {
  }

  lemma FailureFits(cfg: Config, caps: Capabilities, m: Delivery, h: HandlerResult, unknownUrn: bool)
    requires Ordinary(caps, m) && !ReleasedAsIs(cfg, caps, m)
    requires if Mapped(cfg, m) then h.Throws? && unknownUrn == h.unknownUrn else cfg.strategy.DeadLetter? && !unknownUrn
    ensures PlanFits(cfg, caps, m, h, AfterFailure(cfg, m, Lenient(m.body), unknownUrn))
  {
  }

  lemma BothFit(cfg: Config, caps: Capabilities, m: Delivery, h: HandlerResult, t: Trace, u: Trace)
    requires AllFit(cfg, caps, m, h, t) && AllFit(cfg, caps, m, h, u)
    ensures AllFit(cfg, caps, m, h, t + u)
  {
  }

  // Every call of a dispatch says what the rules say it should.
  lemma CallsFit(cfg: Config, caps: Capabilities, m: Delivery, h: HandlerResult, o: Oracle, n: nat)
    ensures AllFit(cfg, caps, m, h, DispatchOutcome(cfg, caps, m, h, o, n).trace)
  {
    var p := PlanOf(cfg, caps, m);
    TableFits(cfg, caps, m, h);
    if Ordinary(caps, m) && Mapped(cfg, m) {
      HandlingFollows(cfg, caps, m, h, o, n);
      if h.Throws? {
        FailureFits(cfg, caps, m, h, h.unknownUrn);
        FirstFits(cfg, caps, m, h, AfterFailure(cfg, m, p.env, h.unknownUrn), o, n + 1);
      }
      BothFit(cfg, caps, m, h, [Invoked(p.urn, h)],
        if h.Returns? then AckTrace(o, n + 1) else FailureOutcome(cfg, caps, m, p.env, h.unknownUrn, o, n + 1).trace);
    } else if p.Bury? && o(n) == Failed {
      FailedBurialFits(cfg, caps, m, h, o, n);
    } else {
      PlanFollows(cfg, caps, m, h, o, n);
      FirstFits(cfg, caps, m, h, p, o, n);
    }
  }

  lemma FailedBurialFits(cfg: Config, caps: Capabilities, m: Delivery, h: HandlerResult, o: Oracle, n: nat)
    requires PlanOf(cfg, caps, m).Bury? && o(n) == Failed && PlanFits(cfg, caps, m, h, PlanOf(cfg, caps, m))
    ensures AllFit(cfg, caps, m, h, DispatchOutcome(cfg, caps, m, h, o, n).trace)
  {
    var p := PlanOf(cfg, caps, m);
    FailedBurialFollows(cfg, caps, m, h, o, n);
    FirstFits(cfg, caps, m, h, p, o, n);
    if p.onFailure.ThenRetry? {
      FailureFits(cfg, caps, m, h, false);
      FirstFits(cfg, caps, m, h, AfterFailure(cfg, m, p.onFailure.env, false), o, n + 1);
    }
    var rest := match p.onFailure
      case ThenAbandon => AbandonTrace(caps, o, n + 1)
      case ThenRewind => RewindTrace(caps, o, n + 1)
      case ThenRaise => []
      case ThenRetry(e) => FailureOutcome(cfg, caps, m, e, false, o, n + 1).trace;
    BothFit(cfg, caps, m, h, BuryTrace(cfg, caps, m, p.payload, p.source, p.reason, o, n), rest);
  }

  // How a delivery is read: a routing URN beside the body wins over the one in it and makes up for
  // a missing one; without it a body with no identity is poison; a transport that finds poison
  // itself is believed; and a poison body has had as many attempts as the transport or it counts.
  lemma ReadAs(caps: Capabilities, m: Delivery)
    ensures m.route.Gated? || m.route.PoisonRecord? || m.route.NonNumeric? ==> !Ordinary(caps, m)
    ensures m.body.Enveloped? && m.body.env.Envelope? && m.body.env.attempts.Some? && !m.route.PoisonRecord? ==>
      Ordinary(caps, m) ==> CountOf(caps, m) == m.body.env.attempts.value
    ensures m.route.Pinned? && m.route.urn != "" && m.body.Enveloped? ==>
      && Ordinary(caps, m) && (m.body.env != Empty ==> Routing(m) == m.route.urn)
    ensures (m.route.NoRoute? || m.route == Pinned("")) && m.body.Enveloped? ==>
      && (Ordinary(caps, m) <==> caps.classifiesPoison || (m.body.env.Envelope? && m.body.env.urn != ""))
      && (m.body.env.Envelope? ==> Routing(m) == m.body.env.urn)
    ensures (m.route.NoRoute? || m.route.Pinned?) && m.body.Garbled? ==> (Ordinary(caps, m) <==> caps.classifiesPoison)
    ensures var n := PoisonAttempts(m);
      && n >= 0 && n >= m.nativeAttempts && (m.body.Garbled? ==> n >= m.body.count)
      && (n == 0 || n == m.nativeAttempts || (if m.body.Garbled? then n == m.body.count
        else n == AttemptsOf(m.body.env)))
  {
  }

  // Where a message came from: the queue it names itself, or the one it was taken from.
  lemma SourceIs(e: Envelope, queue: string)
    ensures e.Envelope? && e.metaQueue != "" ==> SourceOf(e, queue) == e.metaQueue
    ensures !e.Envelope? || e.metaQueue == "" ==> SourceOf(e, queue) == queue
  {
  }

  // The dead-letter queue: the one that is named, else the name the transport gives it, else the
  // queue's own name with a suffix, which only an explicit empty one leaves the same.
  lemma TargetIs(cfg: Config, caps: Capabilities, queue: string)
    ensures cfg.deadLetterQueue != "" ==> Target(cfg, caps, queue) == cfg.deadLetterQueue
    ensures cfg.deadLetterQueue == "" && caps.namer.Some? ==>
      Target(cfg, caps, queue) == caps.namer.value(queue, cfg.suffix)
    ensures cfg.deadLetterQueue == "" && caps.namer == None ==>
      var t := Target(cfg, caps, queue);
      queue <= t && (t == queue <==> cfg.suffix == Some("")) && (cfg.suffix == None ==> t == queue + ".dlq")
  {
  }
}
