/**
  The consume loop under shutdown signals. The loop is cut into the steps between which Python
  may run a signal handler; signals, the deadline timer and calls of stop() arrive anywhere.
*/
module Shutdown {
  import opened Helpers

  datatype Phase = Idle | Handling | Settling

  // An exception that unwinds the loop. The deadline is no `Exception`, so the dispatch does not
  // swallow it.
  datatype Raised = Nothing | Deadline | Interrupt | Other

  datatype Pc =
    | LoopTop                // the loop condition, then pop
    | SetInflight            // popped, `inflight = received` is next
    | ResetLast              // `_last_phase = _IDLE` is next
    | CheckStop
    | DropInflight           // stop was set: `inflight = None` is next
    | HandBack               // the release of a message taken after the stop is next
    | Entered                // in dispatch before its `try`: the body is read
    | SetHandling            // `_phase = _HANDLING` is next
    | InHandler
    | HandlerEnded           // returned or threw, and the phase still says handling
    | SetSettling            // no handler: `_phase = _SETTLING` is next
    | StartSettling          // the phase is set, the first settling call is next
    | InSettling
    | FinallyLast            // `_last_phase = _phase` is next
    | FinallyIdle            // `_phase = _IDLE` is next
    | ClearInflight          // dispatch returned: `inflight = None` is next
    | CatchDeadline          // `except _ShutdownDeadline`: `inflight = None` is next
    | ReleaseLate            // its release is next
    | Releasing              // in one of these two releases
    | CatchInterrupt         // `except KeyboardInterrupt`: the test is next
    | ReleaseInterrupted     // its release is next
    | ReleasingLast          // in it
    | Finished               // consume returned
    | Escaped                // an exception left consume

  datatype Worker = Worker(
    phase: Phase, lastPhase: Phase, stop: bool, signalled: bool, deadlineHit: bool, timer: bool)

  // History, by the number of the message: how many were popped, the current one being the
  // last, whose settlement started, and the shutdown releases begun.
  datatype Book = Book(popped: nat, settled: set<nat>, released: multiset<nat>)

  // An exception: where it was raised, what it is, and how things stood.
  datatype Hit = Hit(pc: Pc, kind: Raised, lastPhase: Phase, book: Book)

  datatype Machine = Machine(
    pc: Pc, worker: Worker, inflight: Option<nat>, pending: Raised, book: Book,
    hit: Option<Hit>)   // history: the last exception

  // What the main thread meets where that is not determined.
  datatype Choice =
    | Leave           // the limit is reached, or nothing was popped and there is one
    | Poll            // nothing popped
    | Take            // a message popped
    | Mapped          // the URN has a handler
    | Unmapped
    | Ends            // the call returns
    | Fails           // the call raises

  datatype Event = Main(choice: Choice) | Signal | Expire | StopCalled

  function Start(): Machine {
    Machine(LoopTop, Worker(Idle, Idle, false, false, false, false), None, Nothing, Book(0, {}, multiset{}), None)
  }

  // ---- The signal handler -----------------------------------------------------------------

  // What a signal does to the worker: nothing while a message is being settled; an interrupted
  // handler only once the deadline is there or none was to be waited for; a forced exit only after
  // a signal before it; and, short of the deadline, the stop is set.
  lemma SignalMeans(w: Worker, timeout: int)
    ensures var (v, r) := OnSignal(w, timeout);
      && (w.phase.Settling? ==> r == Nothing) && !r.Other?
      && (r.Deadline? ==> w.phase.Handling? && (w.deadlineHit || timeout <= 0))
      && (r.Interrupt? ==> w.stop && w.signalled && !w.deadlineHit)
      && (w.deadlineHit || (v.stop && v.signalled))
      && v.phase == w.phase && v.lastPhase == w.lastPhase && v.deadlineHit == w.deadlineHit
      && (v.timer && !w.timer ==> w.phase.Handling? && timeout > 0 && r == Nothing)
  {
  }

  // `_on_shutdown_signal`: the new state and what it raises.
  function OnSignal(w: Worker, timeout: int): (Worker, Raised) {
    if w.deadlineHit then (w, if w.phase.Handling? then Deadline else Nothing)
    else if w.stop && w.signalled then (w, if w.phase.Settling? then Nothing else Interrupt)
    else
      var v := w.(signalled := true, stop := true);
      if !w.phase.Handling? then (v, Nothing)
      else if timeout <= 0 then (v, Deadline)
      else (v.(timer := true), Nothing)
  }

  // The steps inside the `try` of the dispatch, whose `finally` runs first.
  predicate InTry(pc: Pc) {
    pc in {SetHandling, InHandler, HandlerEnded, SetSettling, StartSettling, InSettling}
  }

  // An exception that is not in the `try` of the dispatch, or no longer.
  function Unwind(m: Machine, r: Raised): Machine {
    var inHandler := m.pc in {CatchInterrupt, ReleaseInterrupted, ReleasingLast};
    if r.Deadline? && m.pc in {FinallyLast, FinallyIdle} then m.(pc := CatchDeadline, pending := Nothing)
    else if r.Interrupt? && !inHandler then m.(pc := CatchInterrupt, pending := Nothing)
    else m.(pc := Escaped, pending := Nothing)
  }

  function Raise(m: Machine, r: Raised): Machine {
    if r == Nothing || m.pc in {Finished, Escaped} then m
    else
      var hit := Some(Hit(m.pc, r, m.worker.lastPhase, m.book));
      if InTry(m.pc) then m.(pc := FinallyLast, pending := r, hit := hit) else Unwind(m, r).(hit := hit)
  }

  // ---- Steps -------------------------------------------------------------------------------

  function Current(b: Book): Option<nat> {
    if b.popped == 0 then None else Some(b.popped - 1)
  }

  function TakeOne(b: Book): Book {
    b.(popped := b.popped + 1)
  }

  function BeginSettling(b: Book): Book {
    if b.popped == 0 then b else b.(settled := b.settled + {b.popped - 1})
  }

  function BeginRelease(b: Book): Book {
    if b.popped == 0 then b else b.(released := b.released + multiset{b.popped - 1})
  }

  function MainStep(m: Machine, c: Choice): Machine {
    var w := m.worker;
    match m.pc
    case LoopTop =>
      if w.stop || c.Leave? then m.(pc := Finished)
      else if c.Take? then m.(pc := SetInflight, book := TakeOne(m.book))
      else if c.Fails? then Raise(m, Other)
      else m
    case SetInflight => m.(pc := ResetLast, inflight := Current(m.book))
    case ResetLast => m.(pc := CheckStop, worker := w.(lastPhase := Idle))
    case CheckStop => m.(pc := if w.stop then DropInflight else Entered)
    case DropInflight => m.(pc := HandBack, inflight := None)
    case HandBack => m.(pc := Releasing, book := BeginRelease(m.book))
    case Entered => if c.Fails? then Raise(m, Other) else m.(pc := if c.Mapped? then SetHandling else SetSettling)
    case SetHandling => m.(pc := InHandler, worker := w.(phase := Handling))
    case InHandler => m.(pc := HandlerEnded)
    case HandlerEnded => m.(pc := StartSettling, worker := w.(phase := Settling))
    case SetSettling => m.(pc := StartSettling, worker := w.(phase := Settling))
    case StartSettling => m.(pc := InSettling, book := BeginSettling(m.book))
    case InSettling => if c.Fails? then Raise(m, Other) else m.(pc := FinallyLast)
    case FinallyLast => m.(pc := FinallyIdle, worker := w.(lastPhase := w.phase))
    case FinallyIdle =>
      var n := m.(worker := w.(phase := Idle));
      if m.pending == Nothing then n.(pc := ClearInflight) else Unwind(n, m.pending)
    case ClearInflight => m.(pc := LoopTop, inflight := None)
    case CatchDeadline => m.(pc := ReleaseLate, inflight := None)
    case ReleaseLate => m.(pc := Releasing, book := BeginRelease(m.book))
    case Releasing => if c.Fails? then Raise(m, Other) else m.(pc := Finished)
    case CatchInterrupt => m.(pc := if m.inflight.Some? && !w.lastPhase.Settling? then ReleaseInterrupted else Finished)
    case ReleaseInterrupted => m.(pc := ReleasingLast, book := BeginRelease(m.book))
    case ReleasingLast => if c.Fails? then Raise(m, Other) else m.(pc := Finished)
    case Finished => m
    case Escaped => m
  }

  function Deliver(m: Machine, w: Worker, timeout: int): Machine {
    var (v, r) := OnSignal(w, timeout);
    Raise(m.(worker := v), r)
  }

  function Next(m: Machine, e: Event, timeout: int): Machine {
    if m.pc in {Finished, Escaped} then m
    else match e
      case Main(c) => MainStep(m, c)
      case Signal => Deliver(m, m.worker, timeout)
      case Expire =>
        if m.worker.timer then Deliver(m, m.worker.(timer := false, deadlineHit := true), timeout) else m
      case StopCalled => m.(worker := m.worker.(stop := true))
  }

  function Run(m: Machine, events: seq<Event>, timeout: int): Machine
    decreases |events|
  {
    if events == [] then m else Run(Next(m, events[0], timeout), events[1..], timeout)
  }

  // ---- What every step keeps -------------------------------------------------------------------

  // No message is both settled and released, none is released twice, only the current one can
  // be released, and every one before it is settled.
  ghost predicate Exclusive(b: Book) {
    && (forall k :: k in b.settled ==> k < b.popped && b.released[k] == 0)
    && (forall k :: b.released[k] <= 1)
    && (forall k :: b.released[k] > 0 ==> k == b.popped - 1)
    && (forall k :: 0 <= k < b.popped - 1 ==> k in b.settled)
  }

  // The current message is neither settled nor released.
  ghost predicate Untouched(b: Book) {
    b.popped > 0 && b.popped - 1 !in b.settled && b.released[b.popped - 1] == 0
  }

  ghost predicate Settled(b: Book) {
    b.popped > 0 && b.popped - 1 in b.settled
  }

  lemma BookKeeps(b: Book)
    requires Exclusive(b)
    ensures b.popped == 0 || Settled(b) ==> Exclusive(TakeOne(b)) && Untouched(TakeOne(b))
    ensures Untouched(b) ==> Exclusive(BeginSettling(b)) && Settled(BeginSettling(b))
    ensures Untouched(b) ==> Exclusive(BeginRelease(b))
    ensures Settled(b) ==> b.released[b.popped - 1] == 0
  {
  }

  ghost predicate Held(m: Machine) {
    m.book.popped > 0 && m.inflight == Current(m.book)
  }

  ghost predicate AtStep(m: Machine) {
    var w, b := m.worker, m.book;
    match m.pc
    case LoopTop => m.inflight == None && w.phase.Idle? && (b.popped == 0 || Settled(b)) && m.pending.Nothing?
    case SetInflight => m.inflight == None && Untouched(b) && w.phase.Idle? && m.pending.Nothing?
    case ResetLast => Held(m) && Untouched(b) && w.phase.Idle? && m.pending.Nothing?
    case CheckStop => Taken(m, Idle)
    case DropInflight => Taken(m, Idle)
    case HandBack => m.inflight == None && Untouched(b) && w.phase.Idle?
    case Entered => Taken(m, Idle)
    case SetHandling => Taken(m, Idle)
    case SetSettling => Taken(m, Idle)
    case InHandler => Taken(m, Handling)
    case HandlerEnded => Taken(m, Handling)
    case StartSettling => Taken(m, Settling)
    case InSettling => Held(m) && Settled(b) && w.phase.Settling? && w.lastPhase.Idle? && m.pending.Nothing?
    case FinallyLast => Held(m) && Unwinding(b, w.phase, m.pending) && w.lastPhase.Idle?
    case FinallyIdle => Held(m) && Unwinding(b, w.phase, m.pending) && w.lastPhase == w.phase
    case ClearInflight => Held(m) && Settled(b) && w.phase.Idle? && w.lastPhase.Settling? && m.pending.Nothing?
    case CatchDeadline => Held(m) && Untouched(b) && !w.lastPhase.Settling?
    case ReleaseLate => m.inflight == None && Untouched(b)
    case Releasing => m.inflight == None
    case CatchInterrupt => m.inflight.Some? ==> Held(m) && (Untouched(b) || (Settled(b) && w.lastPhase.Settling?))
    case ReleaseInterrupted => Held(m) && Untouched(b)
    case ReleasingLast => true
    case Finished => true
    case Escaped => true
  }

  ghost predicate Taken(m: Machine, phase: Phase) {
    Held(m) && Untouched(m.book) && m.worker.phase == phase && m.worker.lastPhase.Idle? && m.pending.Nothing?
  }

  // In the `finally`: settled exactly when the phase says so.
  ghost predicate Unwinding(b: Book, phase: Phase, pending: Raised) {
    if phase.Settling? then Settled(b) && (pending.Nothing? || pending.Other?)
    else Untouched(b) && (pending.Deadline? || pending.Interrupt?)
  }

  ghost predicate Inv(m: Machine) {
    Exclusive(m.book) && AtStep(m)
  }

  lemma DispatchKeepsStep(m: Machine, c: Choice)
    requires AtStep(m) && (InTry(m.pc) || m.pc in {FinallyLast, FinallyIdle, ClearInflight})
    ensures AtStep(MainStep(m, c))
  {
  }

  lemma LoopKeepsStep(m: Machine, c: Choice)
    requires AtStep(m) && !InTry(m.pc) && m.pc !in {FinallyLast, FinallyIdle, ClearInflight}
    requires m.book.popped == 0 || Settled(m.book) ==> Untouched(TakeOne(m.book))
    ensures AtStep(MainStep(m, c))
  {
  }

  lemma MainKeepsStep(m: Machine, c: Choice)
    requires AtStep(m) && (m.book.popped == 0 || Settled(m.book) ==> Untouched(TakeOne(m.book)))
    ensures AtStep(MainStep(m, c))
  {
    if InTry(m.pc) || m.pc in {FinallyLast, FinallyIdle, ClearInflight} {
      DispatchKeepsStep(m, c);
    } else {
      LoopKeepsStep(m, c);
    }
  }

  lemma MainMovesBook(m: Machine, c: Choice)
    requires AtStep(m)
    ensures var b, d := m.book, MainStep(m, c).book;
      || d == b || (d == TakeOne(b) && (b.popped == 0 || Settled(b)))
      || (Untouched(b) && (d == BeginSettling(b) || d == BeginRelease(b)))
  {
  }

  lemma WorkerKeepsStep(m: Machine, w: Worker)
    requires AtStep(m) && w.phase == m.worker.phase && w.lastPhase == m.worker.lastPhase
    ensures AtStep(m.(worker := w))
  {
  }

  lemma UnwindKeepsStep(m: Machine, r: Raised)
    requires AtStep(m) && (r.Deadline? ==> m.worker.phase.Handling?)
      && (r.Interrupt? ==> !m.worker.phase.Settling?) && !r.Other?
    ensures AtStep(Raise(m, r)) && Raise(m, r).book == m.book
  {
  }

  lemma RaiseKeepsStep(m: Machine, w: Worker, r: Raised)
    requires AtStep(m) && w.phase == m.worker.phase && w.lastPhase == m.worker.lastPhase
    requires r.Deadline? ==> w.phase.Handling?
    requires r.Interrupt? ==> !w.phase.Settling?
    requires !r.Other?
    ensures var n := Raise(m.(worker := w), r); AtStep(n) && n.book == m.book
  {
    WorkerKeepsStep(m, w);
    UnwindKeepsStep(m.(worker := w), r);
  }

  lemma StepKeeps(m: Machine, e: Event, timeout: int)
    requires Inv(m)
    ensures Inv(Next(m, e, timeout))
  {
    BookKeeps(m.book);
    match e
    case Main(c) =>
      MainKeepsStep(m, c);
      MainMovesBook(m, c);
    case Signal => RaiseKeepsStep(m, OnSignal(m.worker, timeout).0, OnSignal(m.worker, timeout).1);
    case Expire =>
      var w := m.worker.(timer := false, deadlineHit := true);
      RaiseKeepsStep(m, OnSignal(w, timeout).0, OnSignal(w, timeout).1);
    case StopCalled =>
      var w := m.worker.(stop := true);
      RaiseKeepsStep(m, w, Nothing);
  }

  lemma {:induction false} RunKeeps(m: Machine, events: seq<Event>, timeout: int)
    requires Inv(m)
    ensures Inv(Run(m, events, timeout))
    decreases |events|
  {
    if events != [] {
      StepKeeps(m, events[0], timeout);
      RunKeeps(Next(m, events[0], timeout), events[1..], timeout);
    }
  }

  // Wherever signals, the deadline and stops arrive: a message whose settlement has started is
  // never released as well, and no message is released twice.
  lemma NeverBoth(events: seq<Event>, timeout: int, k: nat)
    ensures var b := Run(Start(), events, timeout).book;
      b.released[k] <= 1 && !(k in b.settled && b.released[k] > 0)
  {
    StartIsClean();
    RunKeeps(Start(), events, timeout);
  }

  // ---- What a signal can interrupt --------------------------------------------------------------

  // The last exception, unless a call raised it, did not come between the start of a settlement
  // and its end; it took the deadline or a worker that waits for none, or a second signal.
  ghost predicate Interrupted(hit: Hit, deadlineHit: bool, timeout: int, signals: nat) {
    match hit.kind
    case Deadline => hit.pc !in {StartSettling, InSettling} && signals >= 1 && (deadlineHit || timeout <= 0)
    case Interrupt => hit.pc !in {StartSettling, InSettling} && signals >= 2
    case _ => true
  }

  ghost predicate Signalled(m: Machine, timeout: int, signals: nat) {
    var w := m.worker;
    && (w.signalled || w.timer || w.deadlineHit ==> signals >= 1)
    && (m.hit.Some? ==> Interrupted(m.hit.value, w.deadlineHit, timeout, signals))
  }

  lemma DeliveryIsSignalled(m: Machine, w: Worker, timeout: int, signals: nat)
    requires AtStep(m) && Signalled(m, timeout, signals) && signals >= 1 && m.pc !in {Finished, Escaped}
    requires w.phase == m.worker.phase && (m.worker.deadlineHit ==> w.deadlineHit)
    requires w.stop && w.signalled && !w.deadlineHit ==> signals >= 2
    ensures Signalled(Deliver(m, w, timeout), timeout, signals)
  {
    SignalMeans(w, timeout);
  }

  lemma MainIsSignalled(m: Machine, c: Choice, timeout: int, signals: nat)
    requires Signalled(m, timeout, signals)
    ensures Signalled(MainStep(m, c), timeout, signals)
  {
  }

  lemma {:induction false} RunIsSignalled(m: Machine, events: seq<Event>, timeout: int, signals: nat)
    requires Inv(m) && Signalled(m, timeout, signals)
    ensures Signalled(Run(m, events, timeout), timeout, signals + Signals(events))
    decreases |events|
  {
    if events != [] {
      var e := events[0];
      var n := signals + if e.Signal? then 1 else 0;
      StepKeeps(m, e, timeout);
      if m.pc !in {Finished, Escaped} {
        match e
        case Main(c) => MainIsSignalled(m, c, timeout, signals);
        case Signal => DeliveryIsSignalled(m, m.worker, timeout, n);
        case Expire =>
          if m.worker.timer {
            DeliveryIsSignalled(m, m.worker.(timer := false, deadlineHit := true), timeout, signals);
          }
        case StopCalled =>
      }
      RunIsSignalled(Next(m, e, timeout), events[1..], timeout, n);
    }
  }

  // However signals, the deadline and stops arrive: none of them ever interrupts a settlement; the
  // first signal interrupts nothing before the deadline, unless there is none to wait for; and the
  // forced exit takes a second one.
  lemma SettlingIsNotInterrupted(events: seq<Event>, timeout: int)
    ensures var n := Run(Start(), events, timeout);
      n.hit.Some? ==> Interrupted(n.hit.value, n.worker.deadlineHit, timeout, Signals(events))
  {
    StartIsClean();
    RunIsSignalled(Start(), events, timeout, 0);
  }

  // ---- What it does interrupt ---------------------------------------------------------------------

  // A signal while a handler runs: the first arms the deadline, or is it where there is none to wait
  // for; the deadline and a second signal end the handler.
  lemma HandlerIsInterrupted(m: Machine, timeout: int)
    requires Inv(m) && m.pc.InHandler?
    ensures var w, n := m.worker, Next(m, Signal, timeout);
      && (w.deadlineHit || (w.stop && w.signalled) || timeout <= 0 ==> n.pc.FinallyLast?)
      && (w.deadlineHit || (timeout <= 0 && !(w.stop && w.signalled)) ==> n.pending.Deadline?)
      && (!w.deadlineHit && w.stop && w.signalled ==> n.pending.Interrupt?)
      && (!w.deadlineHit && !(w.stop && w.signalled) && timeout > 0 ==>
          n.pc.InHandler? && n.worker.timer && n.worker.stop && n.worker.signalled)
    ensures m.worker.timer ==>
      Next(m, Expire, timeout).pc.FinallyLast? && Next(m, Expire, timeout).pending.Deadline?
  {
  }

  function MainRun(m: Machine, n: nat): Machine
    decreases n
  {
    if n == 0 then m else MainRun(MainStep(m, Ends), n - 1)
  }

  lemma {:induction false} MainRunIs(m: Machine, n: nat, timeout: int)
    ensures Run(m, seq(n, (_: nat) => Main(Ends)), timeout) == MainRun(m, n)
    decreases n
  {
    var all := seq(n, (_: nat) => Main(Ends));
    if n > 0 {
      assert all[1..] == seq(n - 1, (_: nat) => Main(Ends));
      assert Next(m, all[0], timeout) == MainStep(m, Ends);
      MainRunIs(MainStep(m, Ends), n - 1, timeout);
    }
  }

  lemma FinallyRuns(m: Machine)
    requires m.pc.FinallyLast? && !m.worker.phase.Settling? && (m.pending.Deadline? || m.pending.Interrupt?)
    ensures MainRun(m, 2) == m.(
      pc := if m.pending.Deadline? then CatchDeadline else CatchInterrupt, pending := Nothing,
      worker := m.worker.(lastPhase := m.worker.phase, phase := Idle))
  {
    var m1 := MainStep(m, Ends);
    assert m1 == m.(pc := FinallyIdle, worker := m.worker.(lastPhase := m.worker.phase));
    assert MainRun(m, 2) == MainRun(m1, 1) == MainRun(MainStep(m1, Ends), 0);
  }

  lemma CatchRuns(m: Machine)
    requires m.inflight.Some? && !m.worker.lastPhase.Settling?
    requires m.pc.CatchDeadline? || m.pc.CatchInterrupt?
    ensures var n := MainRun(m, 3); n.pc.Finished? && n.book == BeginRelease(m.book)
  {
    var m1 := MainStep(m, Ends);
    assert m1 == if m.pc.CatchDeadline? then m.(pc := ReleaseLate, inflight := None) else m.(pc := ReleaseInterrupted);
    var m2 := MainStep(m1, Ends);
    assert m2.book == BeginRelease(m.book) && (m2.pc.Releasing? || m2.pc.ReleasingLast?);
    assert MainRun(m, 3) == MainRun(m1, 2) == MainRun(m2, 1) == MainRun(MainStep(m2, Ends), 0);
  }

  lemma {:induction false} MainRunSplit(m: Machine, a: nat, b: nat)
    ensures MainRun(m, a + b) == MainRun(MainRun(m, a), b)
    decreases a
  {
    if a > 0 { MainRunSplit(MainStep(m, Ends), a - 1, b); }
  }

  // The way out of the handler, undisturbed: the message is released.
  lemma WayOut(m: Machine)
    requires AtStep(m) && m.pc.FinallyLast? && (m.pending.Deadline? || m.pending.Interrupt?)
    ensures var n := MainRun(m, 5); n.pc.Finished? && n.book == BeginRelease(m.book)
  {
    FinallyRuns(m);
    CatchRuns(MainRun(m, 2));
    MainRunSplit(m, 2, 3);
  }

  // So a message whose handler runs when the deadline comes, or a second signal, is released and
  // the loop ends.
  lemma InterruptedIsReleased(m: Machine, timeout: int, last: Event)
    requires Inv(m) && m.pc.InHandler? && !m.worker.deadlineHit && !(m.worker.stop && m.worker.signalled)
    requires timeout > 0 && last in {Signal, Expire}
    ensures var n := Run(m, [Signal, last] + seq(5, (_: nat) => Main(Ends)), timeout);
      n.pc.Finished? && n.book == BeginRelease(m.book)
  {
    var a := Next(m, Signal, timeout);
    var b := Next(a, last, timeout);
    HandlerIsInterrupted(m, timeout);
    StepKeeps(m, Signal, timeout);
    HandlerIsInterrupted(a, timeout);
    StepKeeps(a, last, timeout);
    WayOut(b);
    MainRunIs(b, 5, timeout);
    RunSplit(m, [Signal, last], seq(5, (_: nat) => Main(Ends)), timeout);
    assert [Signal, last][1..] == [last] && [last][1..] == [];
    assert Run(a, [last], timeout) == Run(b, [], timeout);
    assert Run(m, [Signal, last], timeout) == b;
  }

  // The loop has been told to stop and is not in a dispatch, nor will it be.
  predicate Stopping(m: Machine) {
    m.worker.stop && !InTry(m.pc) && m.pc !in {Entered, FinallyLast, FinallyIdle, ClearInflight}
  }

  // After a stop between two messages no handler is called any more; a message popped after it is
  // handed back.
  lemma {:induction false} NothingIsHandledAfterStop(m: Machine, events: seq<Event>, timeout: int)
    requires Stopping(m)
    ensures Stopping(Run(m, events, timeout))
    decreases |events|
  {
    if events != [] {
      StopStays(m, events[0], timeout);
      NothingIsHandledAfterStop(Next(m, events[0], timeout), events[1..], timeout);
    }
  }

  lemma StopStays(m: Machine, e: Event, timeout: int)
    requires Stopping(m)
    ensures Stopping(Next(m, e, timeout))
    ensures m.pc.LoopTop? && e.Main? ==> Next(m, e, timeout).pc.Finished?
  {
  }

  lemma HandedBack(m: Machine)
    requires m.worker.stop && m.pc.CheckStop?
    ensures var n := MainRun(m, 4); n.pc.Finished? && n.book == BeginRelease(m.book)
  {
    var m1 := m.(pc := DropInflight);
    var m2 := m.(pc := HandBack, inflight := None);
    var m3 := m2.(pc := Releasing, book := BeginRelease(m.book));
    assert MainStep(m, Ends) == m1 && MainStep(m1, Ends) == m2 && MainStep(m2, Ends) == m3;
    assert MainRun(m, 4) == MainRun(m1, 3) == MainRun(m2, 2) == MainRun(m3, 1) == MainRun(MainStep(m3, Ends), 0);
  }

  // ---- Left neither settled nor released -------------------------------------------------------

  // A last exception that leaves the current message reserved, for the broker to bring back: it
  // is not in flight yet or no longer, or the last phase is still that of the message before it,
  // or its release is about to begin and is not caught any more; or its body cannot be read.
  ghost predicate Leaves(hit: Hit) {
    match hit.pc
    case SetInflight => true
    case HandBack => true
    case ReleaseLate => true
    case ReleaseInterrupted => true
    case ResetLast => hit.lastPhase.Settling?
    case Entered => hit.kind.Other?
    case CatchDeadline => hit.kind.Deadline?
    case CatchInterrupt => Untouched(hit.book)
    case _ => false
  }

  ghost predicate LeftBehind(m: Machine) {
    m.hit.Some? && Leaves(m.hit.value)
  }

  // What becomes of the current message is settled by the last exception.
  ghost predicate Accounted(m: Machine) {
    var w, b := m.worker, m.book;
    match m.pc
    case CatchInterrupt => (Untouched(b) && !(Held(m) && !w.lastPhase.Settling?)) <==> LeftBehind(m)
    case Finished => Untouched(b) <==> LeftBehind(m)
    case Escaped => Untouched(b) <==> LeftBehind(m)
    case Releasing => !Untouched(b) && !LeftBehind(m)
    case ReleasingLast => !Untouched(b) && !LeftBehind(m)
    case _ => !LeftBehind(m)
  }

  lemma MainAccounts(m: Machine, c: Choice)
    requires AtStep(m) && Accounted(m)
    ensures Accounted(MainStep(m, c))
  {
  }

  lemma RaiseAccounts(m: Machine, w: Worker, r: Raised)
    requires AtStep(m) && Accounted(m) && w.phase == m.worker.phase && w.lastPhase == m.worker.lastPhase
    requires r.Deadline? ==> w.phase.Handling?
    requires r.Interrupt? ==> !w.phase.Settling?
    requires !r.Other?
    ensures Accounted(Raise(m.(worker := w), r))
  {
  }

  lemma StepAccounts(m: Machine, e: Event, timeout: int)
    requires AtStep(m) && Accounted(m)
    ensures Accounted(Next(m, e, timeout))
  {
    match e
    case Main(c) => MainAccounts(m, c);
    case Signal => RaiseAccounts(m, OnSignal(m.worker, timeout).0, OnSignal(m.worker, timeout).1);
    case Expire =>
      var w := m.worker.(timer := false, deadlineHit := true);
      RaiseAccounts(m, OnSignal(w, timeout).0, OnSignal(w, timeout).1);
    case StopCalled =>
      var w := m.worker.(stop := true);
      RaiseAccounts(m, w, Nothing);
  }

  lemma {:induction false} RunAccounts(m: Machine, events: seq<Event>, timeout: int)
    requires Inv(m) && Accounted(m)
    ensures Inv(Run(m, events, timeout)) && Accounted(Run(m, events, timeout))
    decreases |events|
  {
    if events != [] {
      StepKeeps(m, events[0], timeout);
      StepAccounts(m, events[0], timeout);
      RunAccounts(Next(m, events[0], timeout), events[1..], timeout);
    }
  }

  // Settled, or released once, and not both.
  ghost predicate Ended(b: Book, k: nat) {
    if k in b.settled then b.released[k] == 0 else b.released[k] == 1
  }

  lemma AllEndedIff(b: Book)
    requires Exclusive(b)
    ensures (forall k: nat :: k < b.popped ==> Ended(b, k)) <==> !Untouched(b)
  {
    forall k: nat | k < b.popped && (k < b.popped - 1 || !Untouched(b)) ensures Ended(b, k) {
      if k == b.popped - 1 && k !in b.settled { assert b.released[k] == 1; }
    }
    if Untouched(b) { assert !Ended(b, b.popped - 1); }
  }

  // When the loop has ended, every message it popped was settled or released, and not both,
  // exactly when the last exception, if there was one, is not of those that leave a message
  // behind.
  lemma NoneIsLeftIff(events: seq<Event>, timeout: int)
    requires Run(Start(), events, timeout).pc in {Finished, Escaped}
    ensures var n := Run(Start(), events, timeout);
      (forall k: nat :: k < n.book.popped ==> Ended(n.book, k)) <==> !LeftBehind(n)
  {
    StartIsClean();
    RunAccounts(Start(), events, timeout);
    AllEndedIff(Run(Start(), events, timeout).book);
  }

  // ---- One signal ------------------------------------------------------------------------------------

  function Signals(events: seq<Event>): nat {
    if events == [] then 0 else (if events[0].Signal? then 1 else 0) + Signals(events[1..])
  }

  // No second signal so far, and how far the first one has come: a deadline is raised once, by
  // the signal itself or by the timer it armed.
  ghost predicate OneSignal(m: Machine, seen: nat) {
    var w := m.worker;
    && seen <= 1
    && (w.signalled || w.timer || w.deadlineHit || m.pending.Deadline? || m.pc in {CatchDeadline, ReleaseLate} ==>
        seen == 1)
    && !m.pending.Interrupt? && m.pc !in {CatchInterrupt, ReleaseInterrupted, ReleasingLast}
    && (w.timer ==> w.signalled && !w.deadlineHit && !m.pending.Deadline? && m.pc !in {CatchDeadline, ReleaseLate})
    && (m.pc in {Finished, Escaped} ==> !Untouched(m.book) || Unreadable(m))
  }

  // The body could not be read.
  predicate Unreadable(m: Machine) {
    m.hit.Some? && m.hit.value.pc.Entered? && m.hit.value.kind.Other?
  }

  lemma OneSignalDispatch(m: Machine, c: Choice, seen: nat)
    requires AtStep(m) && OneSignal(m, seen) && (InTry(m.pc) || m.pc in {FinallyLast, FinallyIdle, ClearInflight})
    ensures OneSignal(MainStep(m, c), seen)
  {
  }

  lemma OneSignalLoop(m: Machine, c: Choice, seen: nat)
    requires AtStep(m) && Accounted(m) && OneSignal(m, seen)
    requires !InTry(m.pc) && m.pc !in {FinallyLast, FinallyIdle, ClearInflight}
    ensures OneSignal(MainStep(m, c), seen)
  {
  }

  lemma OneSignalMain(m: Machine, c: Choice, seen: nat)
    requires AtStep(m) && Accounted(m) && OneSignal(m, seen)
    ensures OneSignal(MainStep(m, c), seen)
  {
    if InTry(m.pc) || m.pc in {FinallyLast, FinallyIdle, ClearInflight} { OneSignalDispatch(m, c, seen); }
    else { OneSignalLoop(m, c, seen); }
  }

  lemma OneSignalStep(m: Machine, e: Event, timeout: int, seen: nat)
    requires AtStep(m) && Accounted(m) && OneSignal(m, seen) && (e.Signal? ==> seen == 0)
    ensures OneSignal(Next(m, e, timeout), if e.Signal? then 1 else seen)
  {
    if e.Main? { OneSignalMain(m, e.choice, seen); }
  }

  lemma {:induction false} OneSignalRun(m: Machine, events: seq<Event>, timeout: int, seen: nat) returns (s: nat)
    requires Inv(m) && Accounted(m) && OneSignal(m, seen) && seen + Signals(events) <= 1
    ensures OneSignal(Run(m, events, timeout), s)
    decreases |events|
  {
    if events == [] {
      s := seen;
    } else {
      StepKeeps(m, events[0], timeout);
      StepAccounts(m, events[0], timeout);
      OneSignalStep(m, events[0], timeout, seen);
      s := OneSignalRun(Next(m, events[0], timeout), events[1..], timeout, if events[0].Signal? then 1 else seen);
    }
  }

  // With at most one signal, wherever it comes, the deadline included: when the loop has ended
  // every message it popped was settled or released, not both, unless its body could not be read.
  lemma CleanShutdown(events: seq<Event>, timeout: int)
    requires Signals(events) <= 1
    requires Run(Start(), events, timeout).pc in {Finished, Escaped} && !Unreadable(Run(Start(), events, timeout))
    ensures var b := Run(Start(), events, timeout).book; forall k: nat :: k < b.popped ==> Ended(b, k)
  {
    StartIsClean();
    var s := OneSignalRun(Start(), events, timeout, 0);
    RunAccounts(Start(), events, timeout);
    AllEndedIff(Run(Start(), events, timeout).book);
  }

  lemma StartIsClean()
    ensures Inv(Start()) && Accounted(Start()) && OneSignal(Start(), 0)
  {
  }

  lemma {:induction false} RunSplit(m: Machine, a: seq<Event>, b: seq<Event>, timeout: int)
    ensures Run(m, a + b, timeout) == Run(Run(m, a, timeout), b, timeout)
    decreases |a|
  {
    if a == [] {
      assert a + b == b;
    } else {
      assert (a + b)[1..] == a[1..] + b;
      RunSplit(Next(m, a[0], timeout), a[1..], b, timeout);
    }
  }

  lemma FirstStep(m: Machine, e: Event, rest: seq<Event>, timeout: int)
    ensures Run(m, [e] + rest, timeout) == Run(Next(m, e, timeout), rest, timeout)
  {
    assert ([e] + rest)[1..] == rest;
  }

  lemma FourSteps(m: Machine, a: Event, b: Event, c: Event, d: Event, timeout: int)
    ensures Run(m, [a, b, c, d], timeout) == Next(Next(Next(Next(m, a, timeout), b, timeout), c, timeout), d, timeout)
  {
    var m1 := Next(m, a, timeout);
    var m2 := Next(m1, b, timeout);
    var m3 := Next(m2, c, timeout);
    FirstStep(m3, d, [], timeout);
    FirstStep(m2, c, [d], timeout);
    FirstStep(m1, b, [c, d], timeout);
    FirstStep(m, a, [b, c, d], timeout);
    assert [a, b, c, d] == [a] + [b, c, d] && [b, c, d] == [b] + [c, d] && [c, d] == [c] + [d] && [d] == [d] + [];
  }

  function Mid(pc: Pc, phase: Phase, last: Phase, inflight: Option<nat>, book: Book): Machine {
    Machine(pc, Worker(phase, last, false, false, false, false), inflight, Nothing, book, None)
  }

  lemma Chain(m0: Machine, a: seq<Event>, m1: Machine, b: seq<Event>, m2: Machine, c: seq<Event>, m3: Machine,
              d: seq<Event>, m4: Machine, timeout: int)
    requires Run(m0, a, timeout) == m1 && Run(m1, b, timeout) == m2
    requires Run(m2, c, timeout) == m3 && Run(m3, d, timeout) == m4
    ensures Run(m0, a + b + c + d, timeout) == m4
  {
    RunSplit(m0, a, b, timeout);
    RunSplit(m0, a + b, c, timeout);
    RunSplit(m0, a + b + c, d, timeout);
  }

  // The first message is taken.
  lemma TakeFirst(timeout: int)
    ensures Run(Start(), [Main(Take), Main(Ends), Main(Ends), Main(Ends)], timeout)
         == Mid(Entered, Idle, Idle, Some(0), Book(1, {}, multiset{}))
  {
    FourSteps(Start(), Main(Take), Main(Ends), Main(Ends), Main(Ends), timeout);
  }

  // It is settled.
  lemma SettleFirst(timeout: int)
    ensures Run(Mid(Entered, Idle, Idle, Some(0), Book(1, {}, multiset{})),
                [Main(Unmapped), Main(Ends), Main(Ends), Main(Ends)], timeout)
         == Mid(FinallyLast, Settling, Idle, Some(0), Book(1, {0}, multiset{}))
  {
    FourSteps(Mid(Entered, Idle, Idle, Some(0), Book(1, {}, multiset{})), Main(Unmapped), Main(Ends), Main(Ends),
              Main(Ends), timeout);
    assert {} + {0} == {0};
  }

  // The second message is popped.
  lemma TakeSecond(timeout: int)
    ensures Run(Mid(FinallyLast, Settling, Idle, Some(0), Book(1, {0}, multiset{})),
                [Main(Ends), Main(Ends), Main(Ends), Main(Take)], timeout)
         == Mid(SetInflight, Idle, Settling, None, Book(2, {0}, multiset{}))
  {
    FourSteps(Mid(FinallyLast, Settling, Idle, Some(0), Book(1, {0}, multiset{})), Main(Ends), Main(Ends),
              Main(Ends), Main(Take), timeout);
  }

  // Two signals come before `_last_phase` is reset.
  lemma SignalTwice(timeout: int)
    ensures var m := Mid(SetInflight, Idle, Settling, None, Book(2, {0}, multiset{}));
      var n := Run(m, [Main(Ends), Signal, Signal, Main(Ends)], timeout);
      n.pc.Finished? && n.book == Book(2, {0}, multiset{})
  {
    FourSteps(Mid(SetInflight, Idle, Settling, None, Book(2, {0}, multiset{})), Main(Ends), Signal, Signal,
              Main(Ends), timeout);
  }

  // The window of the stale phase is real: the second message is in flight, and it is neither
  // settled nor released.
  lemma StaleWindowLeavesAMessage(timeout: int)
    ensures exists events :: var n := Run(Start(), events, timeout);
      n.pc.Finished? && n.book.popped == 2 && Untouched(n.book) && 0 in n.book.settled
  {
    var go := Main(Ends);
    var a, b := [Main(Take), go, go, go], [Main(Unmapped), go, go, go];
    var c, d := [go, go, go, Main(Take)], [go, Signal, Signal, go];
    TakeFirst(timeout);
    SettleFirst(timeout);
    TakeSecond(timeout);
    SignalTwice(timeout);
    var n := Run(Mid(SetInflight, Idle, Settling, None, Book(2, {0}, multiset{})), d, timeout);
    Chain(Start(), a, Mid(Entered, Idle, Idle, Some(0), Book(1, {}, multiset{})), b,
          Mid(FinallyLast, Settling, Idle, Some(0), Book(1, {0}, multiset{})), c,
          Mid(SetInflight, Idle, Settling, None, Book(2, {0}, multiset{})), d, n, timeout);
  }
}
