/**
 The event processor: a bounded buffer, a batching loop and per-type handlers.
 */
module EventPipeline {

  datatype Event = Event(id: string, kind: string, severity: string, host: string)

  datatype Config = Config(capacity: nat, batchSize: nat)

  datatype Pipeline = Pipeline(buffer: seq<Event>, batch: seq<Event>, processed: seq<Event>, running: bool)

  const FRESH := Pipeline([], [], [], true)

  /** `ready` tells whether the loop is waiting at its receive; it matters only
      for a buffer of capacity 0, where an event is handed over directly. */
  datatype Step = Submit(event: Event, ready: bool) | Receive | Tick | Stop

  function Flush(s: Pipeline): Pipeline {
    s.(processed := s.processed + s.batch, batch := [])
  }

  function Take(cfg: Config, s: Pipeline, e: Event): Pipeline {
    var s' := s.(batch := s.batch + [e]);
    if |s'.batch| >= cfg.batchSize then Flush(s') else s'
  }

  predicate Admits(cfg: Config, s: Pipeline, step: Step)
    requires step.Submit?
  {
    |s.buffer| < cfg.capacity || (cfg.capacity == 0 && step.ready && s.running)
  }

  function Apply(cfg: Config, s: Pipeline, step: Step): Pipeline {
    match step
    case Submit(e, _) =>
      if !Admits(cfg, s, step) then s
      else if cfg.capacity == 0 then Take(cfg, s, e)
      else s.(buffer := s.buffer + [e])
    case Receive =>
      if s.running && s.buffer != []
      then Take(cfg, s.(buffer := s.buffer[1..]), s.buffer[0])
      else s
    case Tick => if s.running then Flush(s) else s
    case Stop => if s.running then Flush(s).(running := false) else s
  }

  function Run(cfg: Config, s: Pipeline, steps: seq<Step>): Pipeline {
    if steps == [] then s else Apply(cfg, Run(cfg, s, steps[..|steps| - 1]), steps[|steps| - 1])
  }

  lemma RunSnoc(cfg: Config, s: Pipeline, steps: seq<Step>, step: Step)
    ensures Run(cfg, s, steps + [step]) == Apply(cfg, Run(cfg, s, steps), step)
  {
    assert (steps + [step])[..|steps|] == steps;
  }

  /** The buffer is not full, or there is none and the loop is waiting. */
  predicate HasRoom(cfg: Config, s: Pipeline, ready: bool) {
    if cfg.capacity > 0 then |s.buffer| < cfg.capacity else ready && s.running
  }

  /** The submitted events there was room for, in order of submission. */
  function Accepted(cfg: Config, steps: seq<Step>): seq<Event> {
    if steps == [] then []
    else
      var init := steps[..|steps| - 1];
      var last := steps[|steps| - 1];
      if last.Submit? && HasRoom(cfg, Run(cfg, FRESH, init), last.ready)
      then Accepted(cfg, init) + [last.event] else Accepted(cfg, init)
  }

  function Held(s: Pipeline): seq<Event> {
    s.processed + s.batch + s.buffer
  }

  ghost predicate Bounded(cfg: Config, s: Pipeline) {
    && (s.batch == [] || |s.batch| < cfg.batchSize)
    && |s.buffer| <= cfg.capacity
    && (!s.running ==> s.batch == [])
  }

  lemma TakeKeeps(cfg: Config, s: Pipeline, e: Event)
    ensures var s' := Take(cfg, s, e);
            s'.processed + s'.batch == s.processed + s.batch + [e] && s'.buffer == s.buffer && s'.running == s.running
    ensures Bounded(cfg, s) && s.running ==> Bounded(cfg, Take(cfg, s, e))
  {
    assert s.processed + (s.batch + [e]) == s.processed + s.batch + [e];
  }

  lemma StepConserves(cfg: Config, s: Pipeline, step: Step)
    requires Bounded(cfg, s)
    ensures Bounded(cfg, Apply(cfg, s, step))
    ensures Held(Apply(cfg, s, step)) ==
            Held(s) + if step.Submit? && HasRoom(cfg, s, step.ready) then [step.event] else []
  {
    match step
    case Submit(e, _) =>
      TakeKeeps(cfg, s, e);
    case Receive =>
      if s.running && s.buffer != [] {
        var s' := s.(buffer := s.buffer[1..]);
        TakeKeeps(cfg, s', s.buffer[0]);
        assert s.buffer == [s.buffer[0]] + s.buffer[1..];
      }
    case Tick =>
    case Stop =>
  }

  /** First in, first out, exactly once: what was accepted is what was processed,
      then the batch, then the buffer; and after shutdown only the buffer is left. */
  lemma {:induction false} EventsConserved(cfg: Config, steps: seq<Step>)
    ensures var s := Run(cfg, FRESH, steps);
            && Accepted(cfg, steps) == s.processed + s.batch + s.buffer
            && (s.batch == [] || |s.batch| < cfg.batchSize)
            && |s.buffer| <= cfg.capacity
            && (!s.running ==> Accepted(cfg, steps) == s.processed + s.buffer)
    ensures Bounded(cfg, Run(cfg, FRESH, steps))
  {
    if steps != [] {
      var n := |steps| - 1;
      EventsConserved(cfg, steps[..n]);
      StepConserves(cfg, Run(cfg, FRESH, steps[..n]), steps[n]);
    }
  }

  /** The end of the loop processes the batch, leaves the buffer, and is final: of
      what was accepted, only the buffer is left. */
  lemma StopFlushes(cfg: Config, steps: seq<Step>)
    ensures var s, s' := Run(cfg, FRESH, steps), Run(cfg, FRESH, steps + [Stop]);
            && !s'.running && s'.buffer == s.buffer && s'.batch == []
            && s'.processed == s.processed + s.batch
            && Accepted(cfg, steps) == s'.processed + s'.buffer
  {
    EventsConserved(cfg, steps);
    RunSnoc(cfg, FRESH, steps, Stop);
  }

  lemma TakeFull(cfg: Config, s: Pipeline, e: Event)
    requires Bounded(cfg, s) && cfg.batchSize > 0
    ensures var n := |Take(cfg, s, e).processed|; n == |s.processed| || n == |s.processed| + cfg.batchSize
  {
  }

  /** Between ticks only full batches are processed: without a tick or the end of
      the loop the processed events are a number of batches of the full size. */
  lemma {:induction false} OnlyFullBatches(cfg: Config, steps: seq<Step>) returns (batches: nat)
    requires cfg.batchSize > 0
    requires forall i :: 0 <= i < |steps| ==> !steps[i].Tick? && !steps[i].Stop?
    ensures |Run(cfg, FRESH, steps).processed| == batches * cfg.batchSize
  {
    batches := 0;
    if steps != [] {
      var n := |steps| - 1;
      batches := OnlyFullBatches(cfg, steps[..n]);
      EventsConserved(cfg, steps[..n]);
      var s, s' := Run(cfg, FRESH, steps[..n]), Run(cfg, FRESH, steps);
      match steps[n] {
        case Submit(e, _) => TakeFull(cfg, s, e);
        case Receive => if s.buffer != [] { TakeFull(cfg, s.(buffer := s.buffer[1..]), s.buffer[0]); }
      }
      if |s'.processed| != |s.processed| {
        assert (batches + 1) * cfg.batchSize == batches * cfg.batchSize + cfg.batchSize;
        batches := batches + 1;
      }
    }
  }

  /** Nothing is processed once the loop has stopped, and what has been processed
      is never reordered. */
  lemma {:induction false} ProcessedOnlyGrows(cfg: Config, s: Pipeline, steps: seq<Step>)
    ensures s.processed <= Run(cfg, s, steps).processed
    ensures !s.running ==> Run(cfg, s, steps).processed == s.processed && !Run(cfg, s, steps).running
  {
    if steps != [] {
      ProcessedOnlyGrows(cfg, s, steps[..|steps| - 1]);
    }
  }

  /** Once the loop receives as often as the buffer is long and then ticks, every
      event accepted so far has been processed. */
  lemma {:induction false} DrainProcessesAll(cfg: Config, s: Pipeline)
    requires s.running
    ensures Run(cfg, s, Drain(|s.buffer|)).processed == s.processed + s.batch + s.buffer
  {
    var n := |s.buffer|;
    DrainReceives(cfg, s, n);
    var d := Drain(n);
    assert d[..n] == Receives(n);
    assert s.buffer[..n] == s.buffer;
  }

  function Receives(n: nat): seq<Step> {
    seq(n, _ => Receive)
  }

  function Drain(n: nat): seq<Step> {
    Receives(n) + [Tick]
  }

  lemma {:induction false} DrainReceives(cfg: Config, s: Pipeline, n: nat)
    requires s.running && n <= |s.buffer|
    ensures var s' := Run(cfg, s, Receives(n));
            && s'.running && s'.buffer == s.buffer[n..]
            && s'.processed + s'.batch == s.processed + s.batch + s.buffer[..n]
  {
    if n > 0 {
      DrainReceives(cfg, s, n - 1);
      assert Receives(n)[..n - 1] == Receives(n - 1);
      assert s.buffer[..n] == s.buffer[..n - 1] + [s.buffer[n - 1]];
      var mid := Run(cfg, s, Receives(n - 1));
      assert Run(cfg, s, Receives(n)) == Apply(cfg, mid, Receive);
      assert mid.buffer[0] == s.buffer[n - 1];
      TakeKeeps(cfg, mid.(buffer := mid.buffer[1..]), mid.buffer[0]);
    }
  }

  // ------------------------------------------------------------------------
  // Handlers
  // ------------------------------------------------------------------------

  type HandlerId = nat

  datatype Call = Call(handler: HandlerId, event: Event)

  type Handlers = map<string, seq<HandlerId>>

  function HandlersFor(handlers: Handlers, e: Event): seq<HandlerId> {
    if e.kind in handlers then handlers[e.kind] else []
  }

  function Fanout(hs: seq<HandlerId>, e: Event): seq<Call> {
    seq(|hs|, i requires 0 <= i < |hs| => Call(hs[i], e))
  }

  datatype Registration = Registration(kind: string, handler: HandlerId)

  /** What happens to the handler table and to the events, in order. */
  datatype Work = Registered(what: Registration) | Handled(event: Event)

  function WithHandler(handlers: Handlers, r: Registration): Handlers {
    handlers[r.kind := (if r.kind in handlers then handlers[r.kind] else []) + [r.handler]]
  }

  /** The table after the registrations so far. */
  function TableOf(log: seq<Work>): Handlers {
    if log == [] then map[]
    else
      var table := TableOf(log[..|log| - 1]);
      match log[|log| - 1]
      case Registered(r) => WithHandler(table, r)
      case Handled(_) => table
  }

  /** The calls made: each event is given to the handlers its type then has. */
  function CallsOf(log: seq<Work>): seq<Call> {
    if log == [] then []
    else
      var calls := CallsOf(log[..|log| - 1]);
      match log[|log| - 1]
      case Registered(_) => calls
      case Handled(e) => calls + Fanout(HandlersFor(TableOf(log[..|log| - 1]), e), e)
  }

  function EventsOf(log: seq<Work>): seq<Event> {
    if log == [] then []
    else
      var events := EventsOf(log[..|log| - 1]);
      match log[|log| - 1]
      case Registered(_) => events
      case Handled(e) => events + [e]
  }

  /** The events one handler has been called with. */
  function Seen(calls: seq<Call>, h: HandlerId): seq<Event> {
    if calls == [] then []
    else
      var init := Seen(calls[..|calls| - 1], h);
      var last := calls[|calls| - 1];
      if last.handler == h then init + [last.event] else init
  }

  function OfKind(events: seq<Event>, kind: string): seq<Event> {
    if events == [] then []
    else
      var init := OfKind(events[..|events| - 1], kind);
      var last := events[|events| - 1];
      if last.kind == kind then init + [last] else init
  }

  lemma {:induction false} SeenAppend(a: seq<Call>, b: seq<Call>, h: HandlerId)
    ensures Seen(a + b, h) == Seen(a, h) + Seen(b, h)
  {
    if b == [] {
      assert a + b == a;
    } else {
      SeenAppend(a, b[..|b| - 1], h);
      assert (a + b)[..|a + b| - 1] == a + b[..|b| - 1];
    }
  }

  function Repeat(e: Event, n: nat): seq<Event> {
    if n == 0 then [] else Repeat(e, n - 1) + [e]
  }

  function Occurrences(hs: seq<HandlerId>, h: HandlerId): nat {
    if hs == [] then 0
    else Occurrences(hs[..|hs| - 1], h) + if hs[|hs| - 1] == h then 1 else 0
  }

  lemma {:induction false} SeenFanout(hs: seq<HandlerId>, e: Event, h: HandlerId)
    ensures Seen(Fanout(hs, e), h) == Repeat(e, Occurrences(hs, h))
  {
    if hs != [] {
      var n := |hs| - 1;
      SeenFanout(hs[..n], e, h);
      assert Fanout(hs, e)[..n] == Fanout(hs[..n], e);
    }
  }

  /** How often the handler has been registered for the type. */
  function Registrations(log: seq<Work>, kind: string, h: HandlerId): nat {
    if log == [] then 0
    else
      Registrations(log[..|log| - 1], kind, h) + if log[|log| - 1] == Registered(Registration(kind, h)) then 1 else 0
  }

  lemma {:induction false} TableCounts(log: seq<Work>, e: Event, h: HandlerId)
    ensures Occurrences(HandlersFor(TableOf(log), e), h) == Registrations(log, e.kind, h)
  {
    if log != [] {
      var init, last := log[..|log| - 1], log[|log| - 1];
      TableCounts(init, e, h);
      if last.Registered? {
        WithHandlerCounts(TableOf(init), last.what, e, h);
      }
    }
  }

  lemma WithHandlerCounts(handlers: Handlers, r: Registration, e: Event, h: HandlerId)
    ensures Occurrences(HandlersFor(WithHandler(handlers, r), e), h) ==
            Occurrences(HandlersFor(handlers, e), h) + if r == Registration(e.kind, h) then 1 else 0
  {
    if r.kind == e.kind {
      var hs := HandlersFor(handlers, e);
      assert HandlersFor(WithHandler(handlers, r), e) == hs + [r.handler];
      assert (hs + [r.handler])[..|hs|] == hs;
    }
  }

  /** Read off the registrations and events alone: each event once for every earlier
      registration of the handler for its type. */
  function Due(log: seq<Work>, h: HandlerId): seq<Event> {
    if log == [] then []
    else
      var init := log[..|log| - 1];
      match log[|log| - 1]
      case Registered(_) => Due(init, h)
      case Handled(e) => Due(init, h) + Repeat(e, Registrations(init, e.kind, h))
  }

  /** Whatever is registered when, and whatever other handlers return, a handler
      sees the events due to it, in order. */
  lemma {:induction false} HandlerSeesItsDue(log: seq<Work>, h: HandlerId)
    ensures Seen(CallsOf(log), h) == Due(log, h)
  {
    if log != [] {
      var init, last := log[..|log| - 1], log[|log| - 1];
      HandlerSeesItsDue(init, h);
      if last.Handled? {
        var hs := HandlersFor(TableOf(init), last.event);
        SeenAppend(CallsOf(init), Fanout(hs, last.event), h);
        SeenFanout(hs, last.event, h);
        TableCounts(init, last.event, h);
      }
    }
  }

  predicate Names(w: Work, h: HandlerId) {
    w.Registered? && w.what.handler == h
  }

  lemma {:induction false} NeverRegistered(log: seq<Work>, h: HandlerId, kind: string)
    requires forall i :: 0 <= i < |log| ==> !Names(log[i], h)
    ensures Registrations(log, kind, h) == 0 && Due(log, h) == []
  {
    if log != [] {
      NeverRegistered(log[..|log| - 1], h, kind);
      if log[|log| - 1].Handled? {
        NeverRegistered(log[..|log| - 1], h, log[|log| - 1].event.kind);
      }
    }
  }

  /** A handler registered once, at any time, sees exactly the events of its type
      processed from then on, once each and in order. */
  lemma {:induction false} HandlerSeesItsKind(past: seq<Work>, kind: string, h: HandlerId, later: seq<Work>)
    requires forall i :: 0 <= i < |past| ==> !Names(past[i], h)
    requires forall i :: 0 <= i < |later| ==> !Names(later[i], h)
    ensures Seen(CallsOf(past + [Registered(Registration(kind, h))] + later), h) == OfKind(EventsOf(later), kind)
  {
    HandlerSeesItsDue(past + [Registered(Registration(kind, h))] + later, h);
    DueSince(past, kind, h, later);
  }

  lemma {:induction false} RegisteredOnce(past: seq<Work>, kind: string, h: HandlerId, later: seq<Work>, k: string)
    requires forall i :: 0 <= i < |past| ==> !Names(past[i], h)
    requires forall i :: 0 <= i < |later| ==> !Names(later[i], h)
    ensures Registrations(past + [Registered(Registration(kind, h))] + later, k, h) == if k == kind then 1 else 0
  {
    var log := past + [Registered(Registration(kind, h))] + later;
    if later == [] {
      assert log[..|log| - 1] == past;
      NeverRegistered(past, h, k);
    } else {
      var init := later[..|later| - 1];
      assert log[..|log| - 1] == past + [Registered(Registration(kind, h))] + init;
      RegisteredOnce(past, kind, h, init, k);
    }
  }

  lemma {:induction false} DueSince(past: seq<Work>, kind: string, h: HandlerId, later: seq<Work>)
    requires forall i :: 0 <= i < |past| ==> !Names(past[i], h)
    requires forall i :: 0 <= i < |later| ==> !Names(later[i], h)
    ensures Due(past + [Registered(Registration(kind, h))] + later, h) == OfKind(EventsOf(later), kind)
  {
    var log := past + [Registered(Registration(kind, h))] + later;
    if later == [] {
      assert log[..|log| - 1] == past;
      NeverRegistered(past, h, kind);
    } else {
      var init, last := later[..|later| - 1], later[|later| - 1];
      assert log[..|log| - 1] == past + [Registered(Registration(kind, h))] + init;
      DueSince(past, kind, h, init);
      if last.Handled? {
        RegisteredOnce(past, kind, h, init, last.event.kind);
        RepeatOnce(last.event);
        assert EventsOf(later) == EventsOf(init) + [last.event];
        assert (EventsOf(init) + [last.event])[..|EventsOf(init)|] == EventsOf(init);
      }
    }
  }

  lemma RepeatOnce(e: Event)
    ensures Repeat(e, 0) == [] && Repeat(e, 1) == [e]
  {
  }

  // ------------------------------------------------------------------------
  // The processor object
  // ------------------------------------------------------------------------

  function Registering(rs: seq<Registration>): seq<Work> {
    seq(|rs|, i requires 0 <= i < |rs| => Registered(rs[i]))
  }

  /** What has been done once the events are processed, if `arrivals(i)` are the
      registrations made between the events number `i - 1` and `i`. */
  function Worked(arrivals: nat -> seq<Registration>, events: seq<Event>): seq<Work> {
    if events == [] then []
    else
      var n := |events| - 1;
      Worked(arrivals, events[..n]) + Registering(arrivals(n)) + [Handled(events[n])]
  }

  lemma TakeMore(p: seq<Event>, batch: seq<Event>, i: nat)
    requires i < |batch|
    ensures p + batch[..i] + [batch[i]] == p + batch[..i + 1]
  {
  }

  lemma TakeAll(p: seq<Event>, batch: seq<Event>)
    ensures p + batch[..|batch|] == p + batch && p + batch[..0] == p
  {
  }

  lemma LogSnoc(log: seq<Work>, w: Work)
    ensures TableOf(log + [w]) == if w.Registered? then WithHandler(TableOf(log), w.what) else TableOf(log)
    ensures CallsOf(log + [w]) ==
            CallsOf(log) + if w.Handled? then Fanout(HandlersFor(TableOf(log), w.event), w.event) else []
    ensures EventsOf(log + [w]) == EventsOf(log) + if w.Handled? then [w.event] else []
  {
    assert (log + [w])[..|log|] == log;
  }

  lemma {:induction false} RegisteringMakesNoCalls(log: seq<Work>, rs: seq<Registration>)
    ensures CallsOf(log + Registering(rs)) == CallsOf(log)
    ensures EventsOf(log + Registering(rs)) == EventsOf(log)
  {
    if rs == [] {
      assert log + Registering(rs) == log;
    } else {
      var n := |rs| - 1;
      RegisteringMakesNoCalls(log, rs[..n]);
      assert log + Registering(rs) == log + Registering(rs[..n]) + [Registered(rs[n])];
      LogSnoc(log + Registering(rs[..n]), Registered(rs[n]));
    }
  }

  /** The events handled in the record are the events. */
  lemma {:induction false} WorkedEvents(arrivals: nat -> seq<Registration>, events: seq<Event>)
    ensures EventsOf(Worked(arrivals, events)) == events
  {
    if events != [] {
      var n := |events| - 1;
      WorkedEvents(arrivals, events[..n]);
      RegisteringMakesNoCalls(Worked(arrivals, events[..n]), arrivals(n));
      LogSnoc(Worked(arrivals, events[..n]) + Registering(arrivals(n)), Handled(events[n]));
    }
  }

  /** Handlers may be registered at any time: `arrivals(i)` are the registrations that
      other goroutines make between the events number `i - 1` and `i`. */
  class EventProcessor {
    const cfg: Config
    const arrivals: nat -> seq<Registration>
    var handlers: Handlers
    var buffer: seq<Event>
    var batch: seq<Event>
    var running: bool
    var processed: seq<Event>
    var calls: seq<Call>

    ghost function State(): Pipeline
      reads this
    {
      Pipeline(buffer, batch, processed, running)
    }

    /** Table and calls are those of the events processed and the registrations made
        in between. */
    ghost predicate Valid()
      reads this
    {
      handlers == TableOf(Worked(arrivals, processed)) && calls == CallsOf(Worked(arrivals, processed))
    }

    constructor (cfg: Config, arrivals: nat -> seq<Registration>)
      ensures this.cfg == cfg && this.arrivals == arrivals && State() == FRESH
      ensures Valid() && handlers == map[] && calls == []
    {
      this.cfg := cfg;
      this.arrivals := arrivals;
      handlers, buffer, batch, running, processed, calls := map[], [], [], true, [], [];
    }

    method RegisterHandler(kind: string, h: HandlerId)
      modifies this`handlers
      ensures handlers == old(handlers)[kind := (if kind in old(handlers) then old(handlers)[kind] else []) + [h]]
    {
      var current := if kind in handlers then handlers[kind] else [];
      handlers := handlers[kind := current + [h]];
    }

    /** Registrations made one after the other. */
    method Arrive(rs: seq<Registration>, ghost log: seq<Work>)
      requires handlers == TableOf(log)
      modifies this`handlers
      ensures handlers == TableOf(log + Registering(rs))
    {
      var i := 0;
      assert log + Registering(rs[..0]) == log;
      while i < |rs|
        invariant 0 <= i <= |rs|
        invariant handlers == TableOf(log + Registering(rs[..i]))
      {
        RegisterHandler(rs[i].kind, rs[i].handler);
        assert log + Registering(rs[..i + 1]) == log + Registering(rs[..i]) + [Registered(rs[i])];
        LogSnoc(log + Registering(rs[..i]), Registered(rs[i]));
        i := i + 1;
      }
      assert rs[..i] == rs;
    }

    /** The processor's non-blocking send: into the buffer if it has room, straight
        to the loop if the channel is unbuffered and the loop is waiting at its
        receive (`ready`); otherwise the event is dropped. */
    method SubmitEvent(e: Event, ready: bool) returns (kept: bool)
      requires Valid()
      modifies this`buffer, this`batch, this`processed, this`calls, this`handlers
      ensures Valid() && State() == Apply(cfg, old(State()), Submit(e, ready))
      ensures kept <==> |old(buffer)| < cfg.capacity || (cfg.capacity == 0 && ready && running)
      ensures Bounded(cfg, old(State())) ==> Held(State()) == old(Held(State())) + if kept then [e] else []
      ensures !kept ==> buffer == old(buffer) && calls == old(calls)
    {
      kept := |buffer| < cfg.capacity;
      if Bounded(cfg, State()) {
        StepConserves(cfg, State(), Submit(e, ready));
      }
      if kept {
        buffer := buffer + [e];
      } else if cfg.capacity == 0 && ready && running {
        kept := true;
        TakeEvent(e);
      }
    }

    /** The receiving case of the loop: batch the event, flush a full batch. */
    method TakeEvent(e: Event)
      requires Valid()
      modifies this`batch, this`processed, this`calls, this`handlers
      ensures Valid() && State() == Take(cfg, old(State()), e)
      ensures if |old(batch)| + 1 < cfg.batchSize
              then batch == old(batch) + [e] && processed == old(processed)
              else batch == [] && processed == old(processed) + (old(batch) + [e])
    {
      batch := batch + [e];
      if |batch| >= cfg.batchSize {
        FlushBatch();
      }
    }

    /** The table is read when the event's turn comes, with the registrations made
        by then; each handler of the type is called once, in order. */
    method ProcessEvent(e: Event)
      requires Valid()
      modifies this`calls, this`handlers, this`processed
      ensures Valid() && processed == old(processed) + [e]
      ensures calls == old(calls) + Fanout(HandlersFor(handlers, e), e)
    {
      ghost var log := Worked(arrivals, processed);
      var rs := arrivals(|processed|);
      Arrive(rs, log);
      CallEach(if e.kind in handlers then handlers[e.kind] else [], e);
      RegisteringMakesNoCalls(log, rs);
      LogSnoc(log + Registering(rs), Handled(e));
      assert (processed + [e])[..|processed|] == processed;
      processed := processed + [e];
    }

    method CallEach(hs: seq<HandlerId>, e: Event)
      modifies this`calls
      ensures calls == old(calls) + Fanout(hs, e)
      ensures |calls| == |old(calls)| + |hs|
      ensures forall i :: 0 <= i < |hs| ==> calls[|old(calls)| + i] == Call(hs[i], e)
    {
      var i := 0;
      while i < |hs|
        invariant 0 <= i <= |hs|
        invariant calls == old(calls) + Fanout(hs[..i], e)
      {
        calls := calls + [Call(hs[i], e)];
        assert Fanout(hs[..i + 1], e) == Fanout(hs[..i], e) + [Call(hs[i], e)];
        i := i + 1;
      }
      assert hs[..i] == hs;
    }

    method ProcessBatch()
      requires Valid()
      modifies this`calls, this`handlers, this`processed
      ensures Valid() && processed == old(processed) + batch
    {
      var i := 0;
      TakeAll(processed, batch);
      while i < |batch|
        invariant 0 <= i <= |batch|
        invariant Valid() && processed == old(processed) + batch[..i]
      {
        ProcessEvent(batch[i]);
        TakeMore(old(processed), batch, i);
        i := i + 1;
      }
      TakeAll(old(processed), batch);
    }

    method FlushBatch()
      requires Valid()
      modifies this`calls, this`handlers, this`processed, this`batch
      ensures Valid() && State() == Flush(old(State()))
    {
      if |batch| > 0 {
        ProcessBatch();
        batch := [];
      } else {
        assert processed + batch == processed;
      }
    }

    /** One turn of the loop, or a submission from outside. */
    method Turn(step: Step)
      requires Valid() && running && !step.Stop?
      modifies this`buffer, this`batch, this`processed, this`calls, this`handlers
      ensures Valid() && State() == Apply(cfg, old(State()), step)
    {
      match step {
        case Submit(e, ready) =>
          var _ := SubmitEvent(e, ready);
        case Receive =>
          if buffer != [] {
            var e := buffer[0];
            buffer := buffer[1..];
            TakeEvent(e);
          }
        case Tick =>
          FlushBatch();
      }
    }

    /** The loop, driven by a schedule of submissions from outside, receives and
        ticks, and ended by cancellation. */
    method ProcessLoop(schedule: seq<Step>)
      requires Valid() && running
      requires forall i :: 0 <= i < |schedule| ==> !schedule[i].Stop?
      modifies this`buffer, this`batch, this`running, this`processed, this`calls, this`handlers
      ensures Valid() && State() == Run(cfg, old(State()), schedule + [Stop])
      ensures !running && batch == []
    {
      var i := 0;
      while i < |schedule|
        invariant 0 <= i <= |schedule|
        invariant Valid() && running && State() == Run(cfg, old(State()), schedule[..i])
      {
        RunSnoc(cfg, old(State()), schedule[..i], schedule[i]);
        assert schedule[..i + 1] == schedule[..i] + [schedule[i]];
        Turn(schedule[i]);
        i := i + 1;
      }
      assert schedule[..i] == schedule;
      RunSnoc(cfg, old(State()), schedule, Stop);
      FlushBatch();
      running := false;
    }
  }
}

/** Event counts over a sliding window that is reset when it has passed. */
module EventAggregation {
  import opened Basics
  import opened EventPipeline
  import opened MapSums

  /** A count map is read with 0 for absent keys. */
  function Get<K>(m: map<K, nat>, k: K): nat {
    if k in m then m[k] else 0
  }

  function Bump<K>(m: map<K, nat>, k: K): map<K, nat> {
    m[k := Get(m, k) + 1]
  }

  lemma SumBump<K(!new)>(m: map<K, nat>, k: K)
    ensures Sum(Bump(m, k)) == Sum(m) + 1
  {
    var m' := Bump(m, k);
    SumRemove(m', k);
    if k in m {
      SumRemove(m, k);
      assert m' - {k} == m - {k};
    } else {
      assert m' - {k} == m;
    }
  }

  datatype Aggregate = Aggregate(
    counts: map<string, nat>, bySeverity: map<string, nat>, byHost: map<HostId, nat>, lastReset: int)

  /** `seen` is the clock when the window is tested, `reset` when it is restarted. */
  datatype Observation = Observation(event: Event, seen: int, reset: int)

  datatype Setup = Setup(window: int, start: int, parse: string -> HostId)

  function Restarted(setup: Setup, a: Aggregate, o: Observation): bool {
    o.seen - a.lastReset > setup.window
  }

  function RecordOne(setup: Setup, a: Aggregate, o: Observation): Aggregate {
    var b := if Restarted(setup, a, o) then Aggregate(map[], map[], map[], o.reset) else a;
    Aggregate(
      Bump(b.counts, o.event.kind),
      Bump(b.bySeverity, o.event.severity),
      if o.event.host != "" then Bump(b.byHost, setup.parse(o.event.host)) else b.byHost,
      b.lastReset)
  }

  function RecordAll(setup: Setup, os: seq<Observation>): Aggregate {
    if os == [] then Aggregate(map[], map[], map[], setup.start)
    else RecordOne(setup, RecordAll(setup, os[..|os| - 1]), os[|os| - 1])
  }

  /** When the window in force after the observations began: at the start, or when
      an observation last came more than a window later. */
  function Epoch(setup: Setup, os: seq<Observation>): int {
    if os == [] then setup.start
    else
      var began, o := Epoch(setup, os[..|os| - 1]), os[|os| - 1];
      if o.seen > began + setup.window then o.reset else began
  }

  /** The events recorded since the last reset. */
  function Window(setup: Setup, os: seq<Observation>): seq<Event> {
    if os == [] then []
    else
      var init := os[..|os| - 1];
      var o := os[|os| - 1];
      (if o.seen > Epoch(setup, init) + setup.window then [] else Window(setup, init)) + [o.event]
  }

  function Tally(es: seq<Event>, p: Event -> bool): nat {
    if es == [] then 0
    else Tally(es[..|es| - 1], p) + if p(es[|es| - 1]) then 1 else 0
  }

  function IsKind(k: string): Event -> bool { (e: Event) => e.kind == k }

  function IsSeverity(v: string): Event -> bool { (e: Event) => e.severity == v }

  function IsHost(setup: Setup, h: HostId): Event -> bool { (e: Event) => e.host != "" && setup.parse(e.host) == h }

  function HasHost(): Event -> bool { (e: Event) => e.host != "" }

  ghost predicate Histogram(setup: Setup, a: Aggregate, es: seq<Event>) {
    && (forall k :: Get(a.counts, k) == Tally(es, IsKind(k)))
    && (forall v :: Get(a.bySeverity, v) == Tally(es, IsSeverity(v)))
    && (forall h :: Get(a.byHost, h) == Tally(es, IsHost(setup, h)))
  }

  lemma TallySnoc(es: seq<Event>, e: Event, p: Event -> bool)
    ensures Tally(es + [e], p) == Tally(es, p) + if p(e) then 1 else 0
  {
    assert (es + [e])[..|es|] == es;
  }

  lemma HistogramStep(setup: Setup, b: Aggregate, es: seq<Event>, e: Event, a: Aggregate)
    requires Histogram(setup, b, es)
    requires a.counts == Bump(b.counts, e.kind) && a.bySeverity == Bump(b.bySeverity, e.severity)
    requires a.byHost == if e.host != "" then Bump(b.byHost, setup.parse(e.host)) else b.byHost
    ensures Histogram(setup, a, es + [e])
  {
    forall k ensures Get(a.counts, k) == Tally(es + [e], IsKind(k)) {
      TallySnoc(es, e, IsKind(k));
    }
    forall v ensures Get(a.bySeverity, v) == Tally(es + [e], IsSeverity(v)) {
      TallySnoc(es, e, IsSeverity(v));
    }
    forall h ensures Get(a.byHost, h) == Tally(es + [e], IsHost(setup, h)) {
      TallySnoc(es, e, IsHost(setup, h));
    }
  }

  /** The aggregator resets exactly when an observation comes more than a window
      after the last reset. */
  lemma {:induction false} ResetByClock(setup: Setup, os: seq<Observation>)
    ensures RecordAll(setup, os).lastReset == Epoch(setup, os)
  {
    if os != [] {
      ResetByClock(setup, os[..|os| - 1]);
    }
  }

  /** The maps are the histograms of the events, and sum up accordingly. */
  ghost predicate Counts(setup: Setup, a: Aggregate, es: seq<Event>) {
    && Histogram(setup, a, es)
    && Sum(a.counts) == |es| && Sum(a.bySeverity) == |es| && Sum(a.byHost) == Tally(es, HasHost())
  }

  lemma NothingCounted(setup: Setup, at: int)
    ensures Counts(setup, Aggregate(map[], map[], map[], at), [])
  {
  }

  lemma CountedOne(setup: Setup, b: Aggregate, es: seq<Event>, e: Event, a: Aggregate)
    requires Counts(setup, b, es)
    requires a.counts == Bump(b.counts, e.kind) && a.bySeverity == Bump(b.bySeverity, e.severity)
    requires a.byHost == if e.host != "" then Bump(b.byHost, setup.parse(e.host)) else b.byHost
    ensures Counts(setup, a, es + [e])
  {
    HistogramStep(setup, b, es, e, a);
    SumBump(b.counts, e.kind);
    SumBump(b.bySeverity, e.severity);
    SumBump(b.byHost, setup.parse(e.host));
    TallySnoc(es, e, HasHost());
  }

  lemma CountsStep(setup: Setup, a: Aggregate, es: seq<Event>, o: Observation)
    requires Counts(setup, a, es)
    ensures Counts(setup, RecordOne(setup, a, o), (if Restarted(setup, a, o) then [] else es) + [o.event])
  {
    if Restarted(setup, a, o) {
      NothingCounted(setup, o.reset);
      CountedOne(setup, Aggregate(map[], map[], map[], o.reset), [], o.event, RecordOne(setup, a, o));
    } else {
      CountedOne(setup, a, es, o.event, RecordOne(setup, a, o));
    }
  }

  /** After any records the three maps are the exact histograms of the window, so
      types and severities each sum to its length and hosts to those carrying one. */
  lemma {:induction false} CountsAreHistograms(setup: Setup, os: seq<Observation>)
    ensures Counts(setup, RecordAll(setup, os), Window(setup, os))
  {
    if os != [] {
      var n := |os| - 1;
      CountsAreHistograms(setup, os[..n]);
      ResetByClock(setup, os[..n]);
      CountsStep(setup, RecordAll(setup, os[..n]), Window(setup, os[..n]), os[n]);
    }
  }

  function EventsIn(os: seq<Observation>): seq<Event> {
    seq(|os|, i requires 0 <= i < |os| => os[i].event)
  }

  /** Where the window in force opens. */
  function Opening(setup: Setup, os: seq<Observation>): (k: nat)
    ensures k <= |os|
  {
    if os == [] then 0
    else
      var n := |os| - 1;
      if os[n].seen > Epoch(setup, os[..n]) + setup.window then n else Opening(setup, os[..n])
  }

  /** The window holds the events from its opening on. */
  lemma {:induction false} WindowFromOpening(setup: Setup, os: seq<Observation>)
    ensures Window(setup, os) == EventsIn(os[Opening(setup, os)..])
  {
    if os != [] {
      var n := |os| - 1;
      WindowFromOpening(setup, os[..n]);
      var k := Opening(setup, os);
      if k == n {
        assert os[n..] == [os[n]];
      }
      EventsSnoc(os[..n][Opening(setup, os[..n])..], os[n]);
      assert k < n ==> os[k..] == os[..n][k..] + [os[n]];
    }
  }

  lemma EventsSnoc(os: seq<Observation>, o: Observation)
    ensures EventsIn(os + [o]) == EventsIn(os) + [o.event] && EventsIn([o]) == [o.event]
  {
  }

  /** All of its events but the one that opened it came within a window's length of
      its begin. */
  lemma {:induction false} WindowByClock(setup: Setup, os: seq<Observation>, i: nat)
    requires Opening(setup, os) < i < |os|
    ensures os[i].seen <= Epoch(setup, os) + setup.window
  {
    var n := |os| - 1;
    if i < n {
      WindowByClock(setup, os[..n], i);
      assert os[..n][i] == os[i];
    }
  }

  datatype Summary = Summary(
    total: nat, byType: map<string, nat>, bySeverity: map<string, nat>, byHost: map<HostId, nat>)

  class EventAggregator {
    const setup: Setup
    var counts: map<string, nat>
    var bySeverity: map<string, nat>
    var byHost: map<HostId, nat>
    var lastReset: int

    ghost function State(): Aggregate
      reads this
    {
      Aggregate(counts, bySeverity, byHost, lastReset)
    }

    constructor (setup: Setup)
      ensures this.setup == setup && State() == RecordAll(setup, [])
    {
      this.setup := setup;
      counts, bySeverity, byHost, lastReset := map[], map[], map[], setup.start;
    }

    method Record(e: Event, seen: int, reset: int)
      modifies this
      ensures State() == RecordOne(setup, old(State()), Observation(e, seen, reset))
      ensures lastReset == if seen > old(lastReset) + setup.window then reset else old(lastReset)
    {
      if seen - lastReset > setup.window {
        counts, bySeverity, byHost := map[], map[], map[];
        lastReset := reset;
      }
      counts := Bump(counts, e.kind);
      bySeverity := Bump(bySeverity, e.severity);
      if e.host != "" {
        byHost := Bump(byHost, setup.parse(e.host));
      }
    }

    /** The total is accumulated while copying the counts, in any order. */
    method Summarise() returns (r: Summary)
      ensures r.byType == counts && r.bySeverity == bySeverity && r.byHost == byHost
      ensures r.total == Sum(counts)
    {
      var total: nat := 0;
      var copied: map<string, nat> := map[];
      var todo := counts.Keys;
      assert counts == map k | k in todo :: counts[k];
      while todo != {}
        invariant todo <= counts.Keys
        invariant copied == map k | k in counts.Keys - todo :: counts[k]
        invariant total + Sum(map k | k in todo :: counts[k]) == Sum(counts)
        decreases todo
      {
        var t :| t in todo;
        ghost var rest := map k | k in todo :: counts[k];
        SumRemove(rest, t);
        assert rest - {t} == map k | k in todo - {t} :: counts[k];
        copied := copied[t := counts[t]];
        total := total + counts[t];
        todo := todo - {t};
      }
      assert copied == counts;
      r := Summary(total, copied, CopyOf(bySeverity), CopyOf(byHost));
    }
  }

  function CopyOf<K>(m: map<K, nat>): map<K, nat> {
    map k | k in m :: m[k]
  }
}
