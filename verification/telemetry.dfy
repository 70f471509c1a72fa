/** The telemetry state of one dashboard and the handler that updates it for
    each session message, plus the lifecycle actions that reset parts of it. */
module Telemetry {
  import opened Wrappers
  import opened Events
  import opened Ledger
  import EventLog
  import opened Segmenter
  import opened Throughput

  /** One message as delivered: the event, the clock reading when it is handled
      (milliseconds) and the rate table in force at that moment. */
  datatype Message = Message(event: Event, now: int, rates: Pricing)

  datatype State = State(
    events: seq<EventLog.Entry>,
    pending: Option<PendingTurn>,
    segments: seq<Segment>,
    current: Stats,
    session: Stats,
    sessionStart: Option<int>,
    cumulative: Totals,
    series: seq<DataPoint>)

  /** The state before anything has happened. */
  const Initial: State := State([], None, [], Zero, Zero, None, NoTokens, [])

  function TurnsOf(s: State): Turns
  {
    Turns(s.pending, s.segments)
  }

  function TrackOf(s: State): Track
  {
    Track(s.cumulative, s.series)
  }

  /** A session start time counts only when it is set and truthy (non-zero). */
  predicate Active(start: Option<int>)
  {
    start.Some? && start.value != 0
  }

  /** The priced delta a message carries: only `response.done` with usage has one. */
  function DeltaOf(m: Message, price: CostFn): (r: Option<Stats>)
    ensures r.Some? <==> m.event.ResponseDone? && m.event.usage.Some?
    ensures r.Some? ==>
      Counts(r.value) == Extract(m.event.usage.value)
      && CostsOf(r.value) == price(Extract(m.event.usage.value), m.rates)
  {
    match m.event
    case ResponseDone(Some(u)) =>
      var d := Extract(u);
      Some(Merge(d, price(d, m.rates)))
    case _ => None
  }

  /** `handleMessage`: log the message, feed it to the segmenter, and when it
      carries usage replace `current`, add to `session` and, while a session is
      active, record a throughput sample. */
  function Step(s: State, m: Message, price: CostFn): (r: State)
    ensures r.events == EventLog.Push(s.events, EventLog.Entry(m.now, m.event))
    ensures TurnsOf(r) == Next(TurnsOf(s), m.event, m.now)
    ensures r.sessionStart == s.sessionStart
    ensures DeltaOf(m, price).None? ==>
      && r.current == s.current
      && r.session == s.session
      && TrackOf(r) == TrackOf(s)
    ensures DeltaOf(m, price).Some? ==>
      && r.current == DeltaOf(m, price).value
      && r.session == Add(s.session, r.current)
      && (Active(s.sessionStart) ==>
            TrackOf(r) == Record(TrackOf(s), s.sessionStart.value, Counts(r.current), m.now))
      && (!Active(s.sessionStart) ==> TrackOf(r) == TrackOf(s))
  {
    var turns := Next(TurnsOf(s), m.event, m.now);
    var logged := s.(events := EventLog.Push(s.events, EventLog.Entry(m.now, m.event)),
                     pending := turns.pending,
                     segments := turns.segments);
    match DeltaOf(m, price)
    case None => logged
    case Some(full) =>
      var track :=
        if Active(s.sessionStart) then Record(TrackOf(s), s.sessionStart.value, Counts(full), m.now)
        else TrackOf(s);
      logged.(current := full,
              session := Add(s.session, full),
              cumulative := track.cumulative,
              series := track.points)
  }

  /** The handler applied to each message in arrival order. */
  function Run(s: State, msgs: seq<Message>, price: CostFn): State
    decreases |msgs|
  {
    if msgs == [] then s else Run(Step(s, msgs[0], price), msgs[1..], price)
  }

  /** Processing a batch in two parts is processing it whole. */
  lemma {:induction false} RunAppend(s: State, a: seq<Message>, b: seq<Message>, price: CostFn)
    ensures Run(s, a + b, price) == Run(Run(s, a, price), b, price)
    decreases |a|
  {
    if a == [] {
      assert a + b == b;
    } else {
      assert (a + b)[0] == a[0];
      assert (a + b)[1..] == a[1..] + b;
      RunAppend(Step(s, a[0], price), a[1..], b, price);
    }
  }

  /** A batch followed by one more message. */
  lemma RunSnoc(s: State, msgs: seq<Message>, m: Message, price: CostFn)
    ensures Run(s, msgs + [m], price) == Step(Run(s, msgs, price), m, price)
  {
    RunAppend(s, msgs, [m], price);
    assert Run(Run(s, msgs, price), [m], price) == Run(Step(Run(s, msgs, price), m, price), [], price);
  }

  /** The message callback: drain an inbox one message at a time, strictly in
      arrival order, each message fully handled before the next. */
  method Consume(s: State, inbox: seq<Message>, price: CostFn) returns (r: State)
    ensures r == Run(s, inbox, price)
  {
    r := s;
    var i := 0;
    while i < |inbox|
      invariant 0 <= i <= |inbox|
      invariant r == Run(s, inbox[..i], price)
    {
      RunSnoc(s, inbox[..i], inbox[i], price);
      assert inbox[..i + 1] == inbox[..i] + [inbox[i]];
      r := Step(r, inbox[i], price);
      i := i + 1;
    }
    assert inbox[..|inbox|] == inbox;
  }

  /** The state-setting part of a successful `startSession`: the session starts
      now, the throughput series and its running totals start from empty. */
  function StartSucceeded(s: State, now: int): (r: State)
    ensures r.sessionStart == Some(now)
    ensures r.series == [] && r.cumulative == NoTokens
    ensures r.(sessionStart := s.sessionStart, series := s.series, cumulative := s.cumulative) == s
  {
    s.(sessionStart := Some(now), series := [], cumulative := NoTokens)
  }

  /** `stopSession`: `current` back to zero, no session start, no turn in
      progress; totals, timeline, series and log are kept. */
  function StopSession(s: State): (r: State)
    ensures r.current == Zero && r.sessionStart.None? && r.pending.None?
    ensures r.(current := s.current, sessionStart := s.sessionStart, pending := s.pending) == s
  {
    s.(current := Zero, sessionStart := None, pending := None)
  }

  /** `clearEvents`: empties the log and nothing else. */
  function ClearEvents(s: State): (r: State)
    ensures r.events == []
    ensures r.(events := s.events) == s
  {
    s.(events := [])
  }

  /** `resetSessionTotals`: session totals, timeline, series and running
      totals cleared; `current`, the turn in progress and the log kept. */
  function ResetSessionTotals(s: State): (r: State)
    ensures r.session == Zero && r.segments == [] && r.series == [] && r.cumulative == NoTokens
    ensures r.(session := s.session, segments := s.segments,
               series := s.series, cumulative := s.cumulative) == s
  {
    s.(session := Zero, segments := [], series := [], cumulative := NoTokens)
  }

  /** Everything that changes the telemetry state: a delivered message, the
      outcome of a start attempt, and the three user actions. */
  datatype Input =
    | Deliver(msg: Message)
    | StartOk(at: int)
    | StartFailed        // the catch branch of startSession runs stopSession
    | Stop
    | Clear
    | Reset

  function Apply(s: State, i: Input, price: CostFn): State
  {
    match i
    case Deliver(m) => Step(s, m, price)
    case StartOk(at) => StartSucceeded(s, at)
    case StartFailed => StopSession(s)
    case Stop => StopSession(s)
    case Clear => ClearEvents(s)
    case Reset => ResetSessionTotals(s)
  }

  function Drive(s: State, ins: seq<Input>, price: CostFn): State
    decreases |ins|
  {
    if ins == [] then s else Drive(Apply(s, ins[0], price), ins[1..], price)
  }
}
