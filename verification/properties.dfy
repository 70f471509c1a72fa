/** Properties of the telemetry handler over whole message streams, and the
    worked scenarios of the dashboard's behaviour. */
module TelemetryProperties {
  import opened Wrappers
  import opened Events
  import opened Ledger
  import opened EventLog
  import opened Segmenter
  import opened Throughput
  import opened Telemetry

  /* ---------------------------------------------------------------- event log */

  /** The log entries a stream produces, in arrival order. */
  function Entries(msgs: seq<Message>): (r: seq<Entry>)
    ensures |r| == |msgs|
  {
    if msgs == [] then [] else [Entry(msgs[0].now, msgs[0].event)] + Entries(msgs[1..])
  }

  /** After a stream the log is the stream's entries newest first in front of
      the old log, cut to `Capacity`. */
  lemma {:induction false} LogIsNewestFirst(s: State, msgs: seq<Message>, price: CostFn)
    requires |s.events| <= Capacity
    ensures Run(s, msgs, price).events == Cap(Reverse(Entries(msgs)) + s.events)
    decreases |msgs|
  {
    if msgs == [] {
      assert Reverse(Entries(msgs)) + s.events == s.events;
      assert s.events == [] + s.events;
      CapOfShortLog(s.events);
    } else {
      var e := Entry(msgs[0].now, msgs[0].event);
      var s1 := Step(s, msgs[0], price);
      var rest := Entries(msgs[1..]);
      LogIsNewestFirst(s1, msgs[1..], price);
      assert s1.events == Cap([e] + s.events);
      CapAbsorbs(Reverse(rest), [e] + s.events);
      assert Reverse(Entries(msgs)) == Reverse(rest) + [e];
      assert Reverse(rest) + ([e] + s.events) == Reverse(Entries(msgs)) + s.events;
    }
  }

  /** Capping a log already within capacity is a no-op. */
  lemma CapOfShortLog(log: seq<Entry>)
    requires |log| <= Capacity
    ensures Cap(log) == log
  {
  }

  /** From an empty log, a stream leaves exactly its last `Capacity` entries,
      newest first: after 60 messages, the most recent 50. */
  lemma LogKeepsNewest(s: State, msgs: seq<Message>, price: CostFn)
    requires s.events == []
    ensures var log := Run(s, msgs, price).events;
      && |log| == Min(|msgs|, Capacity)
      && log == Reverse(Entries(msgs)[|msgs| - Min(|msgs|, Capacity)..])
  {
    LogIsNewestFirst(s, msgs, price);
    assert Reverse(Entries(msgs)) + s.events == Reverse(Entries(msgs));
    CapOfReverse(Entries(msgs));
  }

  /** The log stays within capacity whatever happens. */
  lemma {:induction false} LogStaysBounded(s: State, ins: seq<Input>, price: CostFn)
    requires |s.events| <= Capacity
    ensures |Drive(s, ins, price).events| <= Capacity
    decreases |ins|
  {
    if ins != [] {
      LogStaysBounded(Apply(s, ins[0], price), ins[1..], price);
    }
  }

  /* ---------------------------------------------------------------- timeline */

  /** A stream only ever appends to the timeline. */
  lemma {:induction false} SegmentsOnlyGrow(s: State, msgs: seq<Message>, price: CostFn)
    ensures |s.segments| <= |Run(s, msgs, price).segments|
    ensures Run(s, msgs, price).segments[..|s.segments|] == s.segments
    decreases |msgs|
  {
    if msgs != [] {
      var s1 := Step(s, msgs[0], price);
      SegmentsOnlyGrow(s1, msgs[1..], price);
      var r := Run(s, msgs, price).segments;
      assert r[..|s.segments|] == r[..|s1.segments|][..|s.segments|];
    }
  }

  /** Message times that never run backwards and start no earlier than `clock`. */
  ghost predicate Chronological(clock: int, msgs: seq<Message>)
  {
    && (forall i :: 0 <= i < |msgs| ==> clock <= msgs[i].now)
    && (forall i, j :: 0 <= i < j < |msgs| ==> msgs[i].now <= msgs[j].now)
  }

  /** The clock reading after a stream: its last message's time. */
  function LastTime(clock: int, msgs: seq<Message>): int
  {
    if msgs == [] then clock else msgs[|msgs| - 1].now
  }

  /** With a clock that never runs backwards, the timeline stays a series of
      well-formed, non-overlapping turns: end >= start, duration = end - start. */
  lemma {:induction false} TimelineStaysSerialized(s: State, msgs: seq<Message>, clock: int, price: CostFn)
    requires Serialized(TurnsOf(s), clock)
    requires Chronological(clock, msgs)
    ensures Serialized(TurnsOf(Run(s, msgs, price)), LastTime(clock, msgs))
    decreases |msgs|
  {
    if msgs != [] {
      var s1 := Step(s, msgs[0], price);
      NextKeepsSerialized(TurnsOf(s), msgs[0].event, clock, msgs[0].now);
      assert Chronological(msgs[0].now, msgs[1..]) by {
        forall i | 0 <= i < |msgs[1..]|
          ensures msgs[0].now <= msgs[1..][i].now
        {
          assert msgs[1..][i] == msgs[i + 1];
        }
      }
      TimelineStaysSerialized(s1, msgs[1..], msgs[0].now, price);
      assert LastTime(msgs[0].now, msgs[1..]) == LastTime(clock, msgs);
    }
  }

  /** The stop signal that closes a turn of `who`. */
  function StopOf(who: Speaker): Event
  {
    if who == User then SpeechStopped else AudioDone
  }

  /** Number of segments of `who` on a timeline. */
  function CountSpeaker(segs: seq<Segment>, who: Speaker): nat
  {
    if segs == [] then 0
    else CountSpeaker(segs[..|segs| - 1], who) + (if segs[|segs| - 1].speaker == who then 1 else 0)
  }

  /** Number of `who`'s stop signals in a stream that arrive while a closable
      turn of `who` is in progress, replaying the turn in progress from `t`. */
  function MatchedStops(t: Turns, msgs: seq<Message>, who: Speaker): nat
    decreases |msgs|
  {
    if msgs == [] then 0
    else (if msgs[0].event == StopOf(who) && CanClose(t.pending, who) then 1 else 0)
         + MatchedStops(Next(t, msgs[0].event, msgs[0].now), msgs[1..], who)
  }

  /** One message adds a segment of `who` exactly when it is `who`'s stop
      signal and finds a closable turn of `who`. */
  lemma NextCountsMatchedStop(t: Turns, e: Event, now: int, who: Speaker)
    ensures CountSpeaker(Next(t, e, now).segments, who)
         == CountSpeaker(t.segments, who) + (if e == StopOf(who) && CanClose(t.pending, who) then 1 else 0)
  {
    var r := Next(t, e, now);
    if |r.segments| > |t.segments| {
      assert r.segments[..|r.segments| - 1] == t.segments;
    }
  }

  /** Over a stream, the segments emitted for each speaker are exactly that
      speaker's stop signals that found a closable turn of theirs. */
  lemma {:induction false} SegmentsCountMatchedStops(s: State, msgs: seq<Message>, who: Speaker, price: CostFn)
    ensures CountSpeaker(Run(s, msgs, price).segments, who)
         == CountSpeaker(s.segments, who) + MatchedStops(TurnsOf(s), msgs, who)
    decreases |msgs|
  {
    if msgs != [] {
      var s1 := Step(s, msgs[0], price);
      NextCountsMatchedStop(TurnsOf(s), msgs[0].event, msgs[0].now, who);
      SegmentsCountMatchedStops(s1, msgs[1..], who, price);
    }
  }

  /** A user barge-in drops the assistant turn in progress: the assistant's
      `response.audio.done` that follows closes nothing. */
  lemma BargeInDropsAssistantTurn(s: State, t0: int, t1: int, t2: int, rates: Pricing, price: CostFn)
    requires s.pending == Some(PendingTurn(t0, Assistant))
    ensures var r := Run(s, [Message(SpeechStarted, t1, rates), Message(AudioDone, t2, rates)], price);
      r.segments == s.segments && r.pending == Some(PendingTurn(t1, User))
  {
    var m1 := Message(SpeechStarted, t1, rates);
    var m2 := Message(AudioDone, t2, rates);
    assert [m1, m2][1..] == [m2];
    var s1 := Step(s, m1, price);
    assert Run(s, [m1, m2], price) == Run(s1, [m2], price);
    assert Run(s1, [m2], price) == Run(Step(s1, m2, price), [], price);
  }

  /* ---------------------------------------------------------------- ledger */

  /** The priced delta of every message, zero for messages without usage. */
  function Deltas(msgs: seq<Message>, price: CostFn): (r: seq<Stats>)
    ensures |r| == |msgs|
  {
    if msgs == [] then [] else [DeltaOf(msgs[0], price).GetOr(Zero)] + Deltas(msgs[1..], price)
  }

  lemma {:induction false} DeltasAppend(a: seq<Message>, b: seq<Message>, price: CostFn)
    ensures Deltas(a + b, price) == Deltas(a, price) + Deltas(b, price)
    decreases |a|
  {
    if a == [] {
      assert a + b == b;
    } else {
      assert (a + b)[1..] == a[1..] + b;
      DeltasAppend(a[1..], b, price);
    }
  }

  /** Ledger additivity: after a stream the session total is the old total plus
      the sum of every delta in the stream. */
  lemma {:induction false} SessionIsSum(s: State, msgs: seq<Message>, price: CostFn)
    ensures Run(s, msgs, price).session == Add(s.session, Sum(Deltas(msgs, price)))
    decreases |msgs|
  {
    if msgs == [] {
      AddZero(s.session);
    } else {
      var s1 := Step(s, msgs[0], price);
      var d := DeltaOf(msgs[0], price).GetOr(Zero);
      SessionIsSum(s1, msgs[1..], price);
      assert Deltas(msgs, price)[1..] == Deltas(msgs[1..], price);
      if DeltaOf(msgs[0], price).None? {
        AddZero(s.session);
      }
      assert s1.session == Add(s.session, d);
      AddAssociative(s.session, d, Sum(Deltas(msgs[1..], price)));
    }
  }

  /** However a stream is split into batches, the session total is the same
      and equals the sum over the whole stream. */
  lemma SessionIgnoresBatching(s: State, a: seq<Message>, b: seq<Message>, price: CostFn)
    ensures Run(Run(s, a, price), b, price).session == Run(s, a + b, price).session
    ensures Run(s, a + b, price).session
         == Add(Add(s.session, Sum(Deltas(a, price))), Sum(Deltas(b, price)))
  {
    RunAppend(s, a, b, price);
    SessionIsSum(s, a, price);
    SessionIsSum(Run(s, a, price), b, price);
  }

  /** The messages an input sequence delivers, in order. */
  function Delivered(ins: seq<Input>): seq<Message>
  {
    if ins == [] then []
    else if ins[0].Deliver? then [ins[0].msg] + Delivered(ins[1..])
    else Delivered(ins[1..])
  }

  /** Between resets, start, stop and clearing leave the session total alone:
      it grows by exactly the deltas delivered. */
  lemma {:induction false} SessionSinceReset(s: State, ins: seq<Input>, price: CostFn)
    requires forall i :: 0 <= i < |ins| ==> !ins[i].Reset?
    ensures Drive(s, ins, price).session == Add(s.session, Sum(Deltas(Delivered(ins), price)))
    decreases |ins|
  {
    if ins == [] {
      AddZero(s.session);
    } else {
      var s1 := Apply(s, ins[0], price);
      SessionSinceReset(s1, ins[1..], price);
      var tail := Sum(Deltas(Delivered(ins[1..]), price));
      if ins[0].Deliver? {
        var m := ins[0].msg;
        SessionIsSum(s, [m], price);
        assert Run(s, [m], price) == s1;
        assert Deltas([m], price) == [DeltaOf(m, price).GetOr(Zero)];
        AddZero(DeltaOf(m, price).GetOr(Zero));
        assert Delivered(ins) == [m] + Delivered(ins[1..]);
        DeltasAppend([m], Delivered(ins[1..]), price);
        SumAppend(Deltas([m], price), Deltas(Delivered(ins[1..]), price));
        AddAssociative(s.session, DeltaOf(m, price).GetOr(Zero), tail);
      }
    }
  }

  /** Right after a reset, the session total is the sum of the deltas delivered
      since, starting from `initialStats`. */
  lemma SessionAfterReset(s: State, ins: seq<Input>, price: CostFn)
    requires forall i :: 0 <= i < |ins| ==> !ins[i].Reset?
    ensures Drive(ResetSessionTotals(s), ins, price).session == Sum(Deltas(Delivered(ins), price))
  {
    SessionSinceReset(ResetSessionTotals(s), ins, price);
    AddZero(Sum(Deltas(Delivered(ins), price)));
  }

  /** The last priced delta of a stream, or `dflt` when none carries usage. */
  function LastDelta(msgs: seq<Message>, price: CostFn, dflt: Stats): Stats
  {
    if msgs == [] then dflt
    else match DeltaOf(msgs[|msgs| - 1], price)
      case Some(d) => d
      case None => LastDelta(msgs[..|msgs| - 1], price, dflt)
  }

  /** `current` is replaced, never accumulated: after a stream it is the last
      response's delta, or the old value when no message carried usage. */
  lemma {:induction false} CurrentIsLatest(s: State, msgs: seq<Message>, price: CostFn)
    ensures Run(s, msgs, price).current == LastDelta(msgs, price, s.current)
    decreases |msgs|
  {
    if msgs != [] {
      var init := msgs[..|msgs| - 1];
      var m := msgs[|msgs| - 1];
      assert msgs == init + [m];
      RunSnoc(s, init, m, price);
      CurrentIsLatest(s, init, price);
    }
  }

  /* ---------------------------------------------------------------- series */

  /** Number of messages in a stream that carry usage. */
  function UsageCount(msgs: seq<Message>): nat
  {
    if msgs == [] then 0
    else (if msgs[0].event.ResponseDone? && msgs[0].event.usage.Some? then 1 else 0) + UsageCount(msgs[1..])
  }

  /** While a session is active, every usage report adds exactly one sample and
      earlier samples are kept as they were. */
  lemma {:induction false} OneSamplePerUsage(s: State, msgs: seq<Message>, price: CostFn)
    requires Active(s.sessionStart)
    ensures |Run(s, msgs, price).series| == |s.series| + UsageCount(msgs)
    ensures Run(s, msgs, price).series[..|s.series|] == s.series
    decreases |msgs|
  {
    if msgs != [] {
      var s1 := Step(s, msgs[0], price);
      OneSamplePerUsage(s1, msgs[1..], price);
      var r := Run(s, msgs, price).series;
      assert r[..|s.series|] == r[..|s1.series|][..|s.series|];
    }
  }

  /** Without an active session no sample is ever recorded and the running
      totals do not move. */
  lemma {:induction false} InactiveSeriesFrozen(s: State, msgs: seq<Message>, price: CostFn)
    requires !Active(s.sessionStart)
    ensures TrackOf(Run(s, msgs, price)) == TrackOf(s)
    decreases |msgs|
  {
    if msgs != [] {
      InactiveSeriesFrozen(Step(s, msgs[0], price), msgs[1..], price);
    }
  }

  /** After `stopSession` messages still reach the log and the ledger but never the series. */
  lemma StoppedSessionRecordsNoSamples(s: State, msgs: seq<Message>, price: CostFn)
    ensures TrackOf(Run(StopSession(s), msgs, price)) == TrackOf(s)
  {
    InactiveSeriesFrozen(StopSession(s), msgs, price);
  }

  /** Every input keeps the running totals equal to the sums of the samples,
      and each sample's cumulative fields equal to the sums up to it. */
  lemma ApplyKeepsTrackConsistent(s: State, i: Input, price: CostFn)
    requires Consistent(TrackOf(s))
    ensures Consistent(TrackOf(Apply(s, i, price)))
  {
    match i
    case Deliver(m) =>
      if DeltaOf(m, price).Some? && Active(s.sessionStart) {
        RecordKeepsConsistent(TrackOf(s), s.sessionStart.value, Counts(DeltaOf(m, price).value), m.now);
      }
    case StartOk(_) => EmptyIsConsistent();
    case Reset => EmptyIsConsistent();
    case _ =>
  }

  lemma {:induction false} TrackStaysConsistent(s: State, ins: seq<Input>, price: CostFn)
    requires Consistent(TrackOf(s))
    ensures Consistent(TrackOf(Drive(s, ins, price)))
    decreases |ins|
  {
    if ins != [] {
      ApplyKeepsTrackConsistent(s, ins[0], price);
      TrackStaysConsistent(Apply(s, ins[0], price), ins[1..], price);
    }
  }

  /** From the initial state, any history of messages and lifecycle actions
      leaves a consistent series and a log within capacity. */
  lemma ReachableInvariants(ins: seq<Input>, price: CostFn)
    ensures Consistent(TrackOf(Drive(Initial, ins, price)))
    ensures |Drive(Initial, ins, price).events| <= Capacity
  {
    EmptyIsConsistent();
    TrackStaysConsistent(Initial, ins, price);
    LogStaysBounded(Initial, ins, price);
  }

  /* ---------------------------------------------------------------- lifecycle */

  lemma ResetIsIdempotent(s: State)
    ensures ResetSessionTotals(ResetSessionTotals(s)) == ResetSessionTotals(s)
  {
  }

  lemma StopIsIdempotent(s: State)
    ensures StopSession(StopSession(s)) == StopSession(s)
  {
  }

  /* ---------------------------------------------------------------- scenarios */

  /** A user turn from t0 to t1 gives one user segment, when t0 is a truthy start. */
  lemma UserTurnScenario(t0: int, t1: int, rates: Pricing, price: CostFn)
    requires t0 != 0
    ensures var r := Run(Initial, [Message(SpeechStarted, t0, rates), Message(SpeechStopped, t1, rates)], price);
      r.segments == [Segment(t0, t1, t1 - t0, User)] && r.pending.None?
  {
    var m1 := Message(SpeechStarted, t0, rates);
    var m2 := Message(SpeechStopped, t1, rates);
    assert [m1, m2][1..] == [m2];
    var s1 := Step(Initial, m1, price);
    assert Run(Initial, [m1, m2], price) == Run(s1, [m2], price);
    assert Run(s1, [m2], price) == Run(Step(s1, m2, price), [], price);
  }

  /** A user turn that starts at instant 0 is never closed: the falsy start
      fails the close guard, so no segment appears and the turn stays open. */
  lemma UserTurnAtInstantZero(t1: int, rates: Pricing, price: CostFn)
    ensures var r := Run(Initial, [Message(SpeechStarted, 0, rates), Message(SpeechStopped, t1, rates)], price);
      r.segments == [] && r.pending == Some(PendingTurn(0, User))
  {
    var m1 := Message(SpeechStarted, 0, rates);
    var m2 := Message(SpeechStopped, t1, rates);
    assert [m1, m2][1..] == [m2];
    var s1 := Step(Initial, m1, price);
    assert Run(Initial, [m1, m2], price) == Run(s1, [m2], price);
    assert Run(s1, [m2], price) == Run(Step(s1, m2, price), [], price);
  }

  /** Two audio deltas and a done give one assistant segment spanning from the
      first delta to the done; the second delta does not reopen the turn. */
  lemma AssistantTurnScenario(t0: int, t1: int, t2: int, rates: Pricing, price: CostFn)
    requires t0 != 0
    ensures var r := Run(Initial, [Message(AudioDelta, t0, rates), Message(AudioDelta, t1, rates),
                                   Message(AudioDone, t2, rates)], price);
      r.segments == [Segment(t0, t2, t2 - t0, Assistant)] && r.pending.None?
  {
    var m1 := Message(AudioDelta, t0, rates);
    var m2 := Message(AudioDelta, t1, rates);
    var m3 := Message(AudioDone, t2, rates);
    assert [m1, m2, m3][1..] == [m2, m3];
    assert [m2, m3][1..] == [m3];
    var s1 := Step(Initial, m1, price);
    var s2 := Step(s1, m2, price);
    assert s2.pending == Some(PendingTurn(t0, Assistant));
    assert Run(Initial, [m1, m2, m3], price) == Run(s1, [m2, m3], price);
    assert Run(s1, [m2, m3], price) == Run(s2, [m3], price);
    assert Run(s2, [m3], price) == Run(Step(s2, m3, price), [], price);
  }

  /** The worked usage report: input audio 100 with 10 cached, text 20, output
      audio 50 and text 5 give the delta 90 / 20 / 10 / 50 / 5. */
  lemma UsageScenario()
    ensures Extract(Usage(InputDetails(100, 20, Some(10), Some(CachedDetails(10, 0))),
                          OutputDetails(50, 5)))
         == TokenCounts(90, 20, 10, 50, 5)
  {
  }

  /** A `response.done` without usage is logged and changes no figure. */
  lemma ResponseWithoutUsage(s: State, now: int, rates: Pricing, price: CostFn)
    ensures var r := Step(s, Message(ResponseDone(None), now, rates), price);
      && r.session == s.session && r.current == s.current
      && r.series == s.series && r.cumulative == s.cumulative
      && r.events[0] == Entry(now, ResponseDone(None))
      && |r.events| == Min(|s.events| + 1, Capacity)
  {
  }
}
