/** The turn segmenter: one optional turn in progress, closed into an appended
    timeline segment by the matching stop signal. Times are milliseconds. */
module Segmenter {
  import opened Wrappers
  import opened Events

  datatype Speaker = User | Assistant

  /** A turn that has started and not yet been closed. */
  datatype PendingTurn = PendingTurn(start: int, speaker: Speaker)

  /** A closed turn of the conversation timeline. */
  datatype Segment = Segment(start: int, end: int, duration: int, speaker: Speaker)

  /** The segmenter's part of the session state. */
  datatype Turns = Turns(pending: Option<PendingTurn>, segments: seq<Segment>)

  /** The guard of a close: a turn of `who` is in progress and its start is a
      truthy number, so a turn that started at instant 0 never closes. */
  predicate CanClose(p: Option<PendingTurn>, who: Speaker)
  {
    p.Some? && p.value.start != 0 && p.value.speaker == who
  }

  /** `e` is a stop signal that closes the turn in progress. */
  predicate Closes(p: Option<PendingTurn>, e: Event)
  {
    || (e.SpeechStopped? && CanClose(p, User))
    || (e.AudioDone? && CanClose(p, Assistant))
  }

  /** Closes the pending turn of `who` at `now` when the guard allows it. */
  function Close(t: Turns, who: Speaker, now: int): Turns
  {
    if CanClose(t.pending, who) then
      var start := t.pending.value.start;
      Turns(None, t.segments + [Segment(start, now, now - start, who)])
    else
      t
  }

  /** The segmenter's reaction to one event arriving at `now`. */
  function Next(t: Turns, e: Event, now: int): (r: Turns)
    // speech_started always opens a user turn, dropping whatever was pending
    ensures e.SpeechStarted? ==>
      r.pending == Some(PendingTurn(now, User)) && r.segments == t.segments
    // the first audio delta of a turn opens an assistant turn; later ones keep its start
    ensures e.AudioDelta? && (t.pending.None? || t.pending.value.speaker == User) ==>
      r.pending == Some(PendingTurn(now, Assistant)) && r.segments == t.segments
    ensures e.AudioDelta? && t.pending.Some? && t.pending.value.speaker == Assistant ==>
      r == t
    // a matching stop appends exactly one segment ending now and clears the turn
    ensures Closes(t.pending, e) ==>
      && r.pending.None?
      && |r.segments| == |t.segments| + 1
      && r.segments[..|t.segments|] == t.segments
      && var seg := r.segments[|t.segments|];
         && seg.speaker == t.pending.value.speaker
         && seg.start == t.pending.value.start
         && seg.end == now
         && seg.duration == seg.end - seg.start
    // an unmatched stop changes nothing
    ensures e.SpeechStopped? && !CanClose(t.pending, User) ==> r == t
    ensures e.AudioDone? && !CanClose(t.pending, Assistant) ==> r == t
    // every other event changes nothing
    ensures (e.ResponseDone? || e.Other?) ==> r == t
    // segments are only ever appended
    ensures |t.segments| <= |r.segments| <= |t.segments| + 1
    ensures r.segments[..|t.segments|] == t.segments
  {
    match e
    case SpeechStarted => t.(pending := Some(PendingTurn(now, User)))
    case SpeechStopped => Close(t, User, now)
    case AudioDelta =>
      if t.pending.None? || t.pending.value.speaker != Assistant then
        t.(pending := Some(PendingTurn(now, Assistant)))
      else
        t
    case AudioDone => Close(t, Assistant, now)
    case ResponseDone(_) => t
    case Other(_) => t
  }

  /** The three states of the segmenter's state machine. */
  datatype Phase = Idle | UserSpeaking | AssistantSpeaking

  function PhaseOf(p: Option<PendingTurn>): Phase
  {
    match p
    case None => Idle
    case Some(turn) => if turn.speaker == User then UserSpeaking else AssistantSpeaking
  }

  /** The transition table of the state machine, written independently of
      `Next`: the next phase and the speaker of the segment emitted, if any. */
  function Table(ph: Phase, e: Event): (Phase, Option<Speaker>)
  {
    match e
    case SpeechStarted => (UserSpeaking, None)
    case SpeechStopped => if ph == UserSpeaking then (Idle, Some(User)) else (ph, None)
    case AudioDelta => (AssistantSpeaking, None)
    case AudioDone => if ph == AssistantSpeaking then (Idle, Some(Assistant)) else (ph, None)
    case ResponseDone(_) => (ph, None)
    case Other(_) => (ph, None)
  }

  /** While no turn in progress started at instant 0, `Next` follows the table:
      same next phase, same segment emitted. */
  lemma NextFollowsTable(t: Turns, e: Event, now: int)
    requires t.pending.Some? ==> t.pending.value.start != 0
    ensures PhaseOf(Next(t, e, now).pending) == Table(PhaseOf(t.pending), e).0
    ensures var r := Next(t, e, now);
      |r.segments| > |t.segments| <==> Table(PhaseOf(t.pending), e).1.Some?
    ensures var r := Next(t, e, now);
      |r.segments| > |t.segments| ==> Some(r.segments[|t.segments|].speaker) == Table(PhaseOf(t.pending), e).1
  {
  }

  /** A closed segment's duration is its length and it does not end before it starts. */
  predicate WellFormed(seg: Segment)
  {
    seg.start <= seg.end && seg.duration == seg.end - seg.start
  }

  /** The timeline is a series of non-overlapping, well-formed segments, each
      ending no later than the next begins, all at or before `clock`; a turn in
      progress began at or after the last segment ended. */
  ghost predicate Serialized(t: Turns, clock: int)
  {
    && (forall i :: 0 <= i < |t.segments| ==> WellFormed(t.segments[i]) && t.segments[i].end <= clock)
    && (forall i, j :: 0 <= i < j < |t.segments| ==> t.segments[i].end <= t.segments[j].start)
    && (t.pending.Some? ==>
          && t.pending.value.start <= clock
          && forall i :: 0 <= i < |t.segments| ==> t.segments[i].end <= t.pending.value.start)
  }

  /** With a clock that does not run backwards, `Next` keeps the timeline serialized. */
  lemma NextKeepsSerialized(t: Turns, e: Event, clock: int, now: int)
    requires Serialized(t, clock)
    requires clock <= now
    ensures Serialized(Next(t, e, now), now)
  {
    var r := Next(t, e, now);
    if |r.segments| > |t.segments| {
      var seg := r.segments[|t.segments|];
      assert WellFormed(seg);
      forall i | 0 <= i < |t.segments|
        ensures r.segments[i].end <= seg.start
      {
        assert r.segments[i] == t.segments[i];
      }
    }
  }
}
