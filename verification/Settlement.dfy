/**
  How the runtime settles one delivery. The decision is written here as a flat table from
  configuration, transport capabilities and delivery to a plan, and the calls a plan makes are
  a trace that depends on how each call ends. Runtime.dfy proves that the nested methods of the
  runtime make exactly these calls.
*/
module Settlement {
  import opened Helpers

  // ---- Configuration, capabilities, deliveries ----------------------------------------

  datatype Strategy = Fail | Delete | Release | DeadLetter

  datatype Native = NoNative | PlainNative | ReportingNative

  datatype Capabilities = Capabilities(
    redelivers: bool,         // Redeliverer
    writesDeadLetters: bool,  // DeadLetterWriter
    rewinds: bool,            // Rewinder
    abandons: bool,           // Abandoner
    native: Native,           // NativeSettler, NativeDeadLetterSettler
    classifiesPoison: bool,
    emptyTiers: bool,         // a list of retry tiers that is empty
    namer: Option<(string, Option<string>) -> string>)  // DeadLetterNamer

  datatype Config = Config(
    strategy: Strategy, maxAttempts: int, deadLetter: bool,
    deadLetterQueue: string, suffix: Option<string>, observed: bool, handlers: set<string>)

  // What the core decoder reads. `attempts` is None for a JSON null, which is no poison. `Hollow(n)`
  // is the bare object with `attempts` n, `Empty` the empty object; `rest` stands for all other
  // members.
  datatype Envelope =
    | Envelope(urn: string, attempts: Option<int>, metaQueue: string, rest: int)
    | Hollow(count: int)
    | Empty

  // A body that passes the structural check, `dirty` when re-publishing it must drop a
  // forbidden key or the `urn` alias; or one that fails it, with what a lenient decode reads.
  datatype Body =
    | Enveloped(env: Envelope, dirty: bool)
    | Garbled(lenient: Envelope, count: int)

  datatype Route =
    | NoRoute
    | Pinned(urn: string)
    | PoisonRecord(attempts: int)   // a poison record of Kafka
    | NonNumeric                    // a poison reservation of Redis
    | Gated(version: string)

  datatype Delivery = Delivery(body: Body, queue: string, route: Route, nativeAttempts: int)

  // What a call writes: a body as it came, an envelope, an envelope with a dead_letter block,
  // or the record that preserves a poison body.
  datatype Payload =
    | Raw(body: Body)
    | Encoded(env: Envelope)
    | Annotated(env: Envelope, reason: string, source: string)
    | Preserved(body: Body, attempts: int)

  // DoneElsewhere: the call returned and nothing was dead-lettered, since a native settle left the
  // message elsewhere or the reservation to be dead-lettered had lapsed.
  datatype Reply = Done | DoneElsewhere | Failed

  // How the k-th call of the process ends.
  type Oracle = nat -> Reply

  datatype HandlerResult = Returns | Throws(unknownUrn: bool)

  datatype Purpose = Again | Grave

  datatype Effect =
    | Invoked(urn: string, result: HandlerResult)
    | Wrote(purpose: Purpose, queue: string, payload: Payload, ok: bool)
    | Redelivered(payload: Payload, ok: bool)
    | DeadLettered(queue: string, payload: Payload, reply: Reply)
    | Acked(ok: bool)
    | Rewound(ok: bool)
    | Abandoned(ok: bool)
    | LeftNative(reason: string, reply: Reply)
    | Observed(source: string, deadLetterQueue: string, reason: string)

  type Trace = seq<Effect>

  // ---- Reading a delivery --------------------------------------------------------------------

  predicate Reserved(r: Route) {
    r.PoisonRecord? || r.NonNumeric? || r.Gated?
  }

  function UrnOf(e: Envelope): string {
    if e.Envelope? then e.urn else ""
  }

  // `int(envelope["attempts"])` raises.
  predicate NullAttempts(e: Envelope) {
    e.Envelope? && e.attempts.None?
  }

  // The attempts of an envelope that has some, a missing or null member counting 0.
  function AttemptsOf(e: Envelope): int {
    match e
    case Envelope(_, attempts, _, _) => if attempts.Some? then attempts.value else 0
    case Hollow(n) => n
    case Empty => 0
  }

  function WithAttempts(e: Envelope, n: int): Envelope {
    if e.Envelope? then e.(attempts := Some(n)) else Hollow(n)
  }

  function Lenient(b: Body): Envelope {
    if b.Enveloped? then b.env else b.lenient
  }

  function SourceOf(e: Envelope, queue: string): string {
    if e.Envelope? && e.metaQueue != "" then e.metaQueue else queue
  }

  // `EnvelopeCodec.poison_cause`
  predicate IsPoison(b: Body, requireIdentity: bool) {
    b.Garbled? || (requireIdentity && UrnOf(b.env) == "")
  }

  // A routing URN the transport carried beside the body.
  predicate HasPin(r: Route) {
    r.Pinned? && r.urn != ""
  }

  predicate FoundPoison(caps: Capabilities, m: Delivery) {
    !Reserved(m.route) && !caps.classifiesPoison && IsPoison(m.body, !HasPin(m.route))
  }

  function Routing(m: Delivery): string {
    if HasPin(m.route) && Lenient(m.body) != Empty then m.route.urn else UrnOf(Lenient(m.body))
  }

  function PoisonAttempts(m: Delivery): int {
    var inBody := if m.body.Garbled? then m.body.count else AttemptsOf(m.body.env);
    Max(Max(m.nativeAttempts, inBody), 0)
  }

  function Max(a: int, b: int): int {
    if a < b then b else a
  }

  predicate KeepsDead(cfg: Config) {
    cfg.deadLetter || cfg.strategy.DeadLetter?
  }

  function Target(cfg: Config, caps: Capabilities, queue: string): string {
    if cfg.deadLetterQueue != "" then cfg.deadLetterQueue
    else if caps.namer.Some? then caps.namer.value(queue, cfg.suffix)
    else queue + (if cfg.suffix.None? then ".dlq" else cfg.suffix.value)
  }

  // `_without_forbidden_keys`
  function Clean(p: Payload): Payload {
    if p.Raw? && p.body.Enveloped? && p.body.dirty then Encoded(p.body.env) else p
  }

  // ---- The decision table --------------------------------------------------------------------

  datatype OnFailure = ThenAbandon | ThenRewind | ThenRetry(env: Envelope) | ThenRaise

  datatype Plan =
    | Drop
    | Bury(payload: Payload, source: string, reason: string, onFailure: OnFailure)
    | LeaveNative(reason: string)
    | GiveBack(payload: Payload)
    | Handle(urn: string, env: Envelope)
    | Stuck   // reading the attempts raises before any call

  // What follows a failure of the message with envelope e.
  function AfterFailure(cfg: Config, m: Delivery, e: Envelope, unknownUrn: bool): Plan {
    var attempts := AttemptsOf(e) + 1;
    var next := WithAttempts(e, attempts);
    if NullAttempts(e) then Stuck
    else if attempts < cfg.maxAttempts then GiveBack(Encoded(next))
    else if cfg.deadLetter then
      var source := SourceOf(e, m.queue);
      var reason := if unknownUrn then "unknown_urn" else "failed";
      Bury(Annotated(next, reason, source), source, reason, ThenRaise)
    else Drop
  }

  function PlanOf(cfg: Config, caps: Capabilities, m: Delivery): Plan {
    var e := Lenient(m.body);
    if m.route.NonNumeric? then Bury(Preserved(m.body, 0), m.queue, "poison", ThenAbandon)
    else if FoundPoison(caps, m) then
      if cfg.strategy.Delete? then Drop
      else if KeepsDead(cfg) then Bury(Preserved(m.body, PoisonAttempts(m)), m.queue, "poison", ThenRewind)
      else if caps.native != NoNative then LeaveNative("poison")
      else AfterFailure(cfg, m, Hollow(PoisonAttempts(m)), true)
    else if !Reserved(m.route) && Routing(m) != "" && Routing(m) in cfg.handlers then Handle(Routing(m), e)
    else if cfg.strategy.Delete? then Drop
    else if Reserved(m.route) && KeepsDead(cfg) then
      Bury(Raw(m.body), m.queue, if m.route.Gated? then "" else "poison", ThenAbandon)
    else if m.route.Gated? then
      if caps.native != NoNative then LeaveNative("unsupported schema version") else Drop
    else if m.route.PoisonRecord? then
      if caps.emptyTiers && caps.redelivers then Drop else AfterFailure(cfg, m, Hollow(m.route.attempts), true)
    else if cfg.strategy.Release? && Routing(m) != "" then GiveBack(Raw(m.body))
    else if cfg.strategy.DeadLetter? && !NullAttempts(e) then
      var source := SourceOf(e, m.queue);
      Bury(Annotated(e, "unknown_urn", source), source, "unknown_urn", ThenRetry(e))
    else AfterFailure(cfg, m, e, true)
  }

  // ---- The calls of a plan -----------------------------------------------------------------

  // The calls made, and whether an exception leaves the dispatch.
  datatype Outcome = Outcome(trace: Trace, raised: bool)

  function AckTrace(o: Oracle, n: nat): Trace {
    [Acked(o(n) != Failed)]
  }

  function RewindTrace(caps: Capabilities, o: Oracle, n: nat): Trace {
    if caps.rewinds then [Rewound(o(n) != Failed)] else []
  }

  function AbandonTrace(caps: Capabilities, o: Oracle, n: nat): Trace {
    if caps.abandons && !caps.rewinds then [Abandoned(o(n) != Failed)] else RewindTrace(caps, o, n)
  }

  function NotifyTrace(cfg: Config, source: string, queue: string, reason: string): Trace {
    if cfg.observed then [Observed(source, queue, reason)] else []
  }

  function BuryTrace(cfg: Config, caps: Capabilities, m: Delivery, payload: Payload, source: string, reason: string,
                     o: Oracle, n: nat): Trace
  {
    var queue := Target(cfg, caps, m.queue);
    var ok := o(n) != Failed;
    var write :=
      if caps.writesDeadLetters then [DeadLettered(queue, payload, o(n))] else [Wrote(Grave, queue, payload, ok)];
    if !ok then write
    else if caps.writesDeadLetters then write + NotifyTrace(cfg, source, queue, reason)
    else write + AckTrace(o, n + 1) + NotifyTrace(cfg, source, queue, reason)
  }

  function GiveBackTrace(caps: Capabilities, m: Delivery, payload: Payload, o: Oracle, n: nat): Trace {
    var ok := o(n) != Failed;
    if caps.redelivers then
      if ok then [Redelivered(payload, true)] else [Redelivered(payload, false)] + RewindTrace(caps, o, n + 1)
    else
      if ok then [Wrote(Again, m.queue, Clean(payload), true)] + AckTrace(o, n + 1)
      else [Wrote(Again, m.queue, Clean(payload), false)] + RewindTrace(caps, o, n + 1)
  }

  function NativeTrace(cfg: Config, caps: Capabilities, m: Delivery, reason: string, o: Oracle, n: nat): Trace {
    [LeftNative(reason, o(n))]
    + if caps.native.ReportingNative? && o(n).Done? then NotifyTrace(cfg, m.queue, "", "") else []
  }

  // The calls after a failure: its plan never handles and never retries again.
  function FailureOutcome(cfg: Config, caps: Capabilities, m: Delivery, e: Envelope, unknownUrn: bool, o: Oracle,
                          n: nat): Outcome {
    match AfterFailure(cfg, m, e, unknownUrn)
    case GiveBack(payload) => Outcome(GiveBackTrace(caps, m, payload, o, n), false)
    case Bury(payload, source, reason, _) =>
      Outcome(BuryTrace(cfg, caps, m, payload, source, reason, o, n), o(n) == Failed)
    case Stuck => Outcome([], true)
    case _ => Outcome(AckTrace(o, n), false)
  }

  function DispatchOutcome(cfg: Config, caps: Capabilities, m: Delivery, h: HandlerResult, o: Oracle, n: nat): Outcome {
    match PlanOf(cfg, caps, m)
    case Drop => Outcome(AckTrace(o, n), false)
    case Stuck => Outcome([], true)
    case LeaveNative(reason) => Outcome(NativeTrace(cfg, caps, m, reason, o, n), false)
    case GiveBack(payload) => Outcome(GiveBackTrace(caps, m, payload, o, n), false)
    case Handle(urn, e) =>
      if h.Returns? then Outcome([Invoked(urn, h)] + AckTrace(o, n + 1), false)
      else
        var rest := FailureOutcome(cfg, caps, m, e, h.unknownUrn, o, n + 1);
        Outcome([Invoked(urn, h)] + rest.trace, rest.raised)
    case Bury(payload, source, reason, onFailure) =>
      var first := BuryTrace(cfg, caps, m, payload, source, reason, o, n);
      if o(n) != Failed then Outcome(first, false)
      else
        match onFailure
        case ThenAbandon => Outcome(first + AbandonTrace(caps, o, n + 1), false)
        case ThenRewind => Outcome(first + RewindTrace(caps, o, n + 1), false)
        case ThenRaise => Outcome(first, true)
        case ThenRetry(e) =>
          var rest := FailureOutcome(cfg, caps, m, e, false, o, n + 1);
          Outcome(first + rest.trace, rest.raised)
  }

  // What an exception leads to once it reaches the dispatch.
  function RecoveryOutcome(cfg: Config, caps: Capabilities, m: Delivery, unknownUrn: bool, o: Oracle, n: nat): Outcome {
    if Reserved(m.route) then Outcome(AbandonTrace(caps, o, n), false)
    else if FoundPoison(caps, m) then Outcome(RewindTrace(caps, o, n), false)
    else FailureOutcome(cfg, caps, m, Lenient(m.body), unknownUrn, o, n)
  }

  // A dead-letter write that failed on a delivery no handler was called for.
  lemma BurialRecovers(cfg: Config, caps: Capabilities, m: Delivery, h: HandlerResult, o: Oracle, n: nat)
    requires PlanOf(cfg, caps, m).Bury? && o(n) == Failed
    requires Reserved(m.route) || FoundPoison(caps, m) || cfg.strategy.DeadLetter?
    ensures var p := PlanOf(cfg, caps, m);
      var first := BuryTrace(cfg, caps, m, p.payload, p.source, p.reason, o, n);
      var rest := RecoveryOutcome(cfg, caps, m, false, o, n + 1);
      |first| == 1 && DispatchOutcome(cfg, caps, m, h, o, n) == Outcome(first + rest.trace, rest.raised)
  {
  }

  // Attempts that cannot be read raise once more when the exception is handled.
  lemma NullRecovers(cfg: Config, caps: Capabilities, m: Delivery, h: HandlerResult, o: Oracle, n: nat)
    requires !Reserved(m.route) && !FoundPoison(caps, m) && NullAttempts(Lenient(m.body))
    requires PlanOf(cfg, caps, m).Stuck?
    ensures DispatchOutcome(cfg, caps, m, h, o, n) == RecoveryOutcome(cfg, caps, m, false, o, n)
  {
  }

  // An unmapped URN takes the path of a failure from the start.
  lemma UnmappedRecovers(cfg: Config, caps: Capabilities, m: Delivery, h: HandlerResult, o: Oracle, n: nat)
    requires !Reserved(m.route) && !FoundPoison(caps, m)
    requires PlanOf(cfg, caps, m) == AfterFailure(cfg, m, Lenient(m.body), true)
    ensures DispatchOutcome(cfg, caps, m, h, o, n) == RecoveryOutcome(cfg, caps, m, true, o, n)
  {
  }

  function HandledOutcome(cfg: Config, caps: Capabilities, m: Delivery, h: HandlerResult, urn: string, o: Oracle,
                          n: nat): Outcome {
    if h.Returns? then Outcome([Invoked(urn, h)] + AckTrace(o, n + 1), false)
    else
      var rest := RecoveryOutcome(cfg, caps, m, h.unknownUrn, o, n + 1);
      Outcome([Invoked(urn, h)] + rest.trace, rest.raised)
  }

  // A handler is called for the routing URN, and its failure takes the path of a failure.
  lemma HandlerRecovers(cfg: Config, caps: Capabilities, m: Delivery, h: HandlerResult, o: Oracle, n: nat)
    requires !Reserved(m.route) && !FoundPoison(caps, m) && Routing(m) != "" && Routing(m) in cfg.handlers
    ensures DispatchOutcome(cfg, caps, m, h, o, n) == HandledOutcome(cfg, caps, m, h, Routing(m), o, n)
  {
  }

  // A plan that buries nothing, or whose write succeeds, is all there is.
  lemma FirstAttemptStands(cfg: Config, caps: Capabilities, m: Delivery, h: HandlerResult, o: Oracle, n: nat)
    requires !PlanOf(cfg, caps, m).Handle? && !PlanOf(cfg, caps, m).Stuck?
    requires PlanOf(cfg, caps, m).Bury? ==> o(n) != Failed
    ensures DispatchOutcome(cfg, caps, m, h, o, n) ==
      Outcome(FirstTrace(cfg, caps, m, PlanOf(cfg, caps, m), o, n), false)
  {
  }

  function FirstTrace(cfg: Config, caps: Capabilities, m: Delivery, p: Plan, o: Oracle, n: nat): Trace
    requires !p.Handle?
  {
    match p
    case Drop => AckTrace(o, n)
    case Stuck => []
    case LeaveNative(reason) => NativeTrace(cfg, caps, m, reason, o, n)
    case GiveBack(payload) => GiveBackTrace(caps, m, payload, o, n)
    case Bury(payload, source, reason, _) => BuryTrace(cfg, caps, m, payload, source, reason, o, n)
  }
}
