/**
  The dispatch of the runtime as it is written: methods that call the transport one call at a
  time, an exception standing for Python's. Each is proved to make the calls of its part of the
  decision table.
*/
module Runtime {
  import opened Helpers
  import opened Settlement

  datatype Exception = BrokerError | UnknownUrn | HandlerError(unknownUrn: bool) | AttemptsError

  class Runtime {
    const cfg: Config
    const caps: Capabilities
    const oracle: Oracle
    var log: Trace

    constructor (cfg: Config, caps: Capabilities, oracle: Oracle)
      ensures this.cfg == cfg && this.caps == caps && this.oracle == oracle && log == []
    {
      this.cfg, this.caps, this.oracle, log := cfg, caps, oracle, [];
    }

    // ---- Calls of the transport ------------------------------------------------------

    /** `_ack_settled`: a failed ack is reported and swallowed. */
    method AckSettled()
      modifies this
      ensures log == old(log) + AckTrace(oracle, |old(log)|)
    {
      log := log + [Acked(oracle(|log|) != Failed)];
    }

    /** `_rewind_unsettled` */
    method RewindUnsettled()
      modifies this
      ensures log == old(log) + RewindTrace(caps, oracle, |old(log)|)
    {
      if !caps.rewinds { return; }
      log := log + [Rewound(oracle(|log|) != Failed)];
    }

    /** `_abandon_unsettled` */
    method AbandonUnsettled()
      modifies this
      ensures log == old(log) + AbandonTrace(caps, oracle, |old(log)|)
    {
      if caps.rewinds || !caps.abandons {
        RewindUnsettled();
        return;
      }
      log := log + [Abandoned(oracle(|log|) != Failed)];
    }

    /** `_notify_dead_letter` */
    method NotifyDeadLetter(source: string, queue: string, reason: string)
      modifies this
      ensures log == old(log) + NotifyTrace(cfg, source, queue, reason)
    {
      if !cfg.observed { return; }
      log := log + [Observed(source, queue, reason)];
    }

    /** `_write_dead_letter` to the target of the delivery. */
    method WriteDeadLetter(m: Delivery, payload: Payload, source: string, reason: string)
      returns (raised: Option<Exception>)
      modifies this
      ensures log == old(log) + BuryTrace(cfg, caps, m, payload, source, reason, oracle, |old(log)|)
      ensures raised == if oracle(|old(log)|) == Failed then Some(BrokerError) else None
    {
      raised := None;
      var queue := Target(cfg, caps, m.queue);
      var ok := oracle(|log|) != Failed;
      if caps.writesDeadLetters {
        log := log + [DeadLettered(queue, payload, oracle(|log|))];
        if !ok { return Some(BrokerError); }
      } else {
        log := log + [Wrote(Grave, queue, payload, ok)];
        if !ok { return Some(BrokerError); }
        AckSettled();
      }
      NotifyDeadLetter(source, queue, reason);
    }

    /** `_release` */
    method GiveItBack(m: Delivery, payload: Payload) returns (raised: Option<Exception>)
      modifies this
      ensures raised == if oracle(|old(log)|) == Failed then Some(BrokerError) else None
      ensures log + (if raised.Some? then RewindTrace(caps, oracle, |old(log)| + 1) else [])
           == old(log) + GiveBackTrace(caps, m, payload, oracle, |old(log)|)
      ensures raised.Some? ==> |log| == |old(log)| + 1
    {
      raised := None;
      var ok := oracle(|log|) != Failed;
      if caps.redelivers {
        log := log + [Redelivered(payload, ok)];
        if !ok { raised := Some(BrokerError); }
      } else {
        log := log + [Wrote(Again, m.queue, Clean(payload), ok)];
        if !ok { return Some(BrokerError); }
        AckSettled();
      }
    }

    /** `_settle_native` */
    method SettleNative(m: Delivery, reason: string) returns (taken: bool)
      modifies this
      ensures taken == (caps.native != NoNative)
      ensures log == old(log) + if taken then NativeTrace(cfg, caps, m, reason, oracle, |old(log)|) else []
    {
      if caps.native.NoNative? { return false; }
      var reply := oracle(|log|);
      log := log + [LeftNative(reason, reply)];
      if caps.native.ReportingNative? && reply.Done? { NotifyDeadLetter(m.queue, "", ""); }
      taken := true;
    }

    // ---- Failures ---------------------------------------------------------------------

    /** `_dead_letter` */
    method DeadLetterIt(m: Delivery, e: Envelope, reason: string) returns (raised: Option<Exception>)
      requires !NullAttempts(e)
      modifies this
      ensures log == old(log) + BuryTrace(cfg, caps, m, Annotated(e, reason, SourceOf(e, m.queue)),
                                          SourceOf(e, m.queue), reason, oracle, |old(log)|)
      ensures raised == if oracle(|old(log)|) == Failed then Some(BrokerError) else None
    {
      var source := SourceOf(e, m.queue);
      raised := WriteDeadLetter(m, Annotated(e, reason, source), source, reason);
    }

    /** `_retry_or_dead_letter` */
    method RetryOrDeadLetter(m: Delivery, e: Envelope, exc: Exception) returns (raised: Option<Exception>)
      modifies this
      ensures var f := FailureOutcome(cfg, caps, m, e, IsUnknownUrn(exc), oracle, |old(log)|);
        log == old(log) + f.trace && (raised.Some? <==> f.raised)
    {
      raised := None;
      if NullAttempts(e) { return Some(AttemptsError); }
      var attempts := AttemptsOf(e) + 1;
      var next := WithAttempts(e, attempts);
      if attempts < cfg.maxAttempts {
        var failure := GiveItBack(m, Encoded(next));
        if failure.Some? { RewindUnsettled(); }
        return;
      }
      if cfg.deadLetter {
        raised := DeadLetterIt(m, next, if IsUnknownUrn(exc) then "unknown_urn" else "failed");
        return;
      }
      AckSettled();
    }

    // ---- Routes without a handler ---------------------------------------------------------

    /** `_settle_version_gated` */
    method SettleVersionGated(m: Delivery, always: bool, reason: string) returns (raised: Option<Exception>)
      modifies this
      ensures log == old(log) +
        (if always || KeepsDead(cfg) then BuryTrace(cfg, caps, m, Raw(m.body), m.queue, reason, oracle, |old(log)|)
         else if caps.native != NoNative then NativeTrace(cfg, caps, m, "unsupported schema version", oracle,
                                                          |old(log)|)
         else AckTrace(oracle, |old(log)|))
      ensures raised == if (always || KeepsDead(cfg)) && oracle(|old(log)|) == Failed then Some(BrokerError) else None
    {
      raised := None;
      if always || KeepsDead(cfg) {
        raised := WriteDeadLetter(m, Raw(m.body), m.queue, reason);
        return;
      }
      var taken := SettleNative(m, "unsupported schema version");
      if taken { return; }
      AckSettled();
    }

    /** `_settle_transport_poison` */
    method SettleTransportPoison(m: Delivery, attempts: int) returns (raised: Option<Exception>)
      modifies this
      ensures log ==
        old(log) + BuryTrace(cfg, caps, m, Preserved(m.body, attempts), m.queue, "poison", oracle, |old(log)|)
      ensures raised == if oracle(|old(log)|) == Failed then Some(BrokerError) else None
    {
      raised := WriteDeadLetter(m, Preserved(m.body, attempts), m.queue, "poison");
    }

    /** `_route_poison` */
    method RoutePoison(m: Delivery) returns (raised: Option<Exception>)
      requires m.route.PoisonRecord?
      modifies this
      ensures Planned(m, PlanOf(cfg, caps, m), old(log), raised)
    {
      raised := None;
      if cfg.strategy.Delete? {
        AckSettled();
      } else if KeepsDead(cfg) {
        raised := SettleVersionGated(m, true, "poison");
      } else if caps.emptyTiers && caps.redelivers {
        AckSettled();
      } else {
        raised := RetryOrDeadLetter(m, Hollow(m.route.attempts), UnknownUrn);
      }
    }

    /** `_route_body_poison` */
    method RouteBodyPoison(m: Delivery) returns (raised: Option<Exception>)
      requires FoundPoison(caps, m)
      modifies this
      ensures Planned(m, PlanOf(cfg, caps, m), old(log), raised)
    {
      raised := None;
      if cfg.strategy.Delete? {
        AckSettled();
        return;
      }
      var attempts := PoisonAttempts(m);
      if KeepsDead(cfg) {
        raised := SettleTransportPoison(m, attempts);
        return;
      }
      var taken := SettleNative(m, "poison");
      if taken { return; }
      raised := RetryOrDeadLetter(m, Hollow(attempts), UnknownUrn);
    }

    /** `_route_unknown`; `urn` and `e` are what dispatch read from the delivery. */
    method RouteUnknown(urn: string, m: Delivery, e: Envelope) returns (raised: Option<Exception>)
      requires !FoundPoison(caps, m) && (urn == "" || urn !in cfg.handlers)
      requires if Reserved(m.route) then urn == "" && e == Empty else urn == Routing(m) && e == Lenient(m.body)
      modifies this
      ensures raised == Some(UnknownUrn) ==> log == old(log) && !Reserved(m.route)
      ensures raised == Some(UnknownUrn) ==> PlanOf(cfg, caps, m) == AfterFailure(cfg, m, e, true)
      ensures raised != Some(UnknownUrn) ==> Planned(m, PlanOf(cfg, caps, m), old(log), raised)
      ensures raised == Some(BrokerError) ==> Reserved(m.route) || cfg.strategy.DeadLetter?
      ensures raised == Some(AttemptsError) ==> !Reserved(m.route) && NullAttempts(Lenient(m.body))
      ensures raised.Some? ==> !raised.value.HandlerError?
    {
      raised := None;
      if m.route.PoisonRecord? {
        raised := RoutePoison(m);
        return;
      }
      if m.route.NonNumeric? {
        raised := SettleTransportPoison(m, 0);
        return;
      }
      if cfg.strategy.Delete? {
        AckSettled();
        return;
      }
      if Reserved(m.route) {
        raised := SettleVersionGated(m, false, "");
        return;
      }
      if cfg.strategy.Release? && urn != "" {
        var failure := GiveItBack(m, Raw(m.body));
        if failure.Some? { RewindUnsettled(); }
        return;
      }
      if cfg.strategy.DeadLetter? {
        if NullAttempts(e) { return Some(AttemptsError); }
        raised := DeadLetterIt(m, e, "unknown_urn");
        return;
      }
      raised := Some(UnknownUrn);
    }

    // The calls since `before` are those of the first attempt of a plan that handles nothing,
    // and an exception is reported exactly when its dead-letter write failed or the attempts could
    // not be read.
    ghost predicate Planned(m: Delivery, p: Plan, before: Trace, raised: Option<Exception>)
      reads this
    {
      && !p.Handle?
      && log == before + FirstTrace(cfg, caps, m, p, oracle, |before|)
      && raised == if p.Stuck? then Some(AttemptsError)
                   else if p.Bury? && oracle(|before|) == Failed then Some(BrokerError) else None
    }

    // ---- Dispatch ---------------------------------------------------------------------------

    // The `except` branch of dispatch.
    method Recover(m: Delivery, e: Envelope, poison: bool, gated: bool, exc: Exception)
      returns (raised: Option<Exception>)
      requires gated == Reserved(m.route) && poison == FoundPoison(caps, m)
      requires !gated && !poison ==> e == Lenient(m.body)
      modifies this
      ensures var r := RecoveryOutcome(cfg, caps, m, IsUnknownUrn(exc), oracle, |old(log)|);
        log == old(log) + r.trace && (raised.Some? <==> r.raised)
    {
      raised := None;
      if poison || gated {
        if gated { AbandonUnsettled(); } else { RewindUnsettled(); }
        return;
      }
      raised := RetryOrDeadLetter(m, e, exc);
    }

    // The body of the `try` when no handler is called, up to its exception.
    method RouteUnhandled(m: Delivery, h: HandlerResult, e: Envelope, urn: string, poison: bool)
      returns (exc: Option<Exception>, ghost first: Trace)
      requires poison == FoundPoison(caps, m)
      requires !poison ==> urn == "" || urn !in cfg.handlers
      requires !poison ==>
        if Reserved(m.route) then urn == "" && e == Empty else urn == Routing(m) && e == Lenient(m.body)
      modifies this
      ensures log == old(log) + first
      ensures DispatchOutcome(cfg, caps, m, h, oracle, |old(log)|) == Pending(m, first, |log|, exc)
    {
      ghost var n := |log|;
      if poison {
        exc := RouteBodyPoison(m);
      } else {
        exc := RouteUnknown(urn, m, e);
      }
      if exc.None? {
        FirstAttemptStands(cfg, caps, m, h, oracle, n);
      } else if exc == Some(UnknownUrn) {
        UnmappedRecovers(cfg, caps, m, h, oracle, n);
      } else if exc == Some(AttemptsError) {
        NullRecovers(cfg, caps, m, h, oracle, n);
      } else {
        BurialRecovers(cfg, caps, m, h, oracle, n);
      }
      first := log[n..];
    }

    // The outcome of a dispatch that has made the calls `first` and then met `exc`.
    ghost function Pending(m: Delivery, first: Trace, n: nat, exc: Option<Exception>): Outcome {
      if exc.None? then Outcome(first, false)
      else
        var rest := RecoveryOutcome(cfg, caps, m, IsUnknownUrn(exc.value), oracle, n);
        Outcome(first + rest.trace, rest.raised)
    }

    // A delivery no handler is called for.
    method DispatchUnhandled(m: Delivery, h: HandlerResult, e: Envelope, urn: string, poison: bool)
      returns (raised: Option<Exception>)
      requires poison == FoundPoison(caps, m)
      requires !poison ==> urn == "" || urn !in cfg.handlers
      requires !poison ==>
        if Reserved(m.route) then urn == "" && e == Empty else urn == Routing(m) && e == Lenient(m.body)
      modifies this
      ensures Dispatched(m, h, old(log), raised)
    {
      ghost var before := log;
      var exc, first := RouteUnhandled(m, h, e, urn, poison);
      raised := None;
      if exc.Some? {
        ghost var rest := RecoveryOutcome(cfg, caps, m, IsUnknownUrn(exc.value), oracle, |log|);
        raised := Recover(m, e, poison, Reserved(m.route), exc.value);
        Joined(before, first, rest.trace);
      }
    }

    // The handler of the routing URN is called.
    method RunHandler(m: Delivery, h: HandlerResult, e: Envelope, urn: string) returns (raised: Option<Exception>)
      requires !Reserved(m.route) && !FoundPoison(caps, m) && e == Lenient(m.body)
      modifies this
      ensures var d := HandledOutcome(cfg, caps, m, h, urn, oracle, |old(log)|);
        log == old(log) + d.trace && (raised.Some? <==> d.raised)
    {
      raised := None;
      log := log + [Invoked(urn, h)];
      if h.Returns? {
        AckSettled();
      } else {
        Joined(old(log), [Invoked(urn, h)], RecoveryOutcome(cfg, caps, m, h.unknownUrn, oracle, |log|).trace);
        raised := Recover(m, e, false, false, HandlerError(h.unknownUrn));
      }
    }

    /** `dispatch`: `h` is how the handler ends, should one be called. */
    method Dispatch(m: Delivery, h: HandlerResult) returns (raised: Option<Exception>)
      modifies this
      ensures Dispatched(m, h, old(log), raised)
    {
      var gated := Reserved(m.route);
      var poison := !gated && !caps.classifiesPoison && IsPoison(m.body, !HasPin(m.route));
      var e := if gated || poison then Empty else Lenient(m.body);
      var urn := if HasPin(m.route) && e != Empty then m.route.urn else UrnOf(e);

      if poison || urn == "" || urn !in cfg.handlers {
        raised := DispatchUnhandled(m, h, e, urn, poison);
      } else {
        HandlerRecovers(cfg, caps, m, h, oracle, |log|);
        raised := RunHandler(m, h, e, urn);
      }
    }

    ghost predicate Dispatched(m: Delivery, h: HandlerResult, before: Trace, raised: Option<Exception>)
      reads this
    {
      var d := DispatchOutcome(cfg, caps, m, h, oracle, |before|);
      log == before + d.trace && (raised.Some? <==> d.raised)
    }
  }

  predicate IsUnknownUrn(e: Exception) {
    e.UnknownUrn? || (e.HandlerError? && e.unknownUrn)
  }
}
